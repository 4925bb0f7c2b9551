/** The user-facing strings of the game, looked up by name. */
module Texts {
  import opened Base

  /** The constant table of texts. */
  const Table: map<string, string> := map[
    "boot.anyInput" := "按任意键开始游戏",
    "boot.done" := "加载完毕",
    "boot.error" := "加载失败，请刷新页面",
    "boot.loading" := "加载中",
    "boot.title" := "弹幕世界2",
    "main.tutorial.movement.first" := "注意到我身子底下两个凸起了吗？那是我的腿",
    "main.tutorial.movement.second" := "我可是会走路的哦",
    "main.tutorial.movement.final" := "按方向键移动",
    "main.tutorial.comment" := "快捷键：按回车开始发弹幕",
    "main.buff.description.none" := "我捡到了……一团空气",
    "main.buff.description.chromatic" := "下一条弹幕一定会很绚丽",
    "main.buff.description.hasty" := "现在我健步如飞了！",
    "main.comment.insert.collision" := "和别的弹幕靠的太近了",
    "main.error.server" := "通讯被干扰，请刷新或稍后再试"
  ]

  function NotFoundMessage(name: string): string {
    "Text '" + name + "' not found"
  }

  /** `Texts.forName(name)`: the entry of a name whose entry is a
      non-empty string; any other name throws an error naming it. */
  function ForName(name: string): (r: Result<string>)
    ensures r.Ok? <==> name in Table && Table[name] != ""
    ensures r.Ok? ==> r.value == Table[name] && r.value != ""
    ensures r.Throw? ==> r.error == Error(PlainError, NotFoundMessage(name))
  {
    if name in Table && Table[name] != "" then Ok(Table[name]) else Throw(Error(PlainError, NotFoundMessage(name)))
  }

  /** Every entry of the table is non-empty, so exactly the table's names
      are found. */
  lemma FoundExactlyTheTableNames(name: string)
    ensures ForName(name).Ok? <==> name in Table
  {
  }

  /** The error names the key: two names that are not found give two
      different errors. */
  lemma NotFoundNamesTheKey(a: string, b: string)
    requires ForName(a).Throw? && ForName(b).Throw? && a != b
    ensures ForName(a).error != ForName(b).error
  {
    var ma := NotFoundMessage(a);
    var mb := NotFoundMessage(b);
    assert ma[6..|ma| - 11] == a;
    assert mb[6..|mb| - 11] == b;
  }
}
