/** The queue of buffs a player holds: a capped first-in first-out list
    from which `add` evicts the oldest entry once the cap is exceeded. */
module BuffDataContainer {
  import opened Base

  /** The kinds of buff; `Other` stands for any value outside the enum. */
  datatype BuffType = NONE | CHROMATIC | HASTY | Other(code: int)

  /** A buff datum, identified by its type and an identity. */
  datatype BuffData = BuffData(buffType: BuffType, id: nat)

  const NoBuffMessage: string := "No buff data available"

  /** The list after `add(x)`: `x` pushed at the back and, when that makes
      the list longer than the cap, the front element shifted off. */
  function Added(datas: seq<BuffData>, max: int, x: BuffData): (r: seq<BuffData>)
    ensures |r| > 0 ==> r[|r| - 1] == x
    ensures |datas| + 1 > max ==> if datas == [] then r == [] else r == datas[1..] + [x]
    ensures |datas| + 1 <= max ==> r == datas + [x]
    ensures 0 <= max && |datas| <= max ==> |r| <= max
  {
    var pushed := datas + [x];
    if |pushed| > max then pushed[1..] else pushed
  }

  /** Adding to a full container keeps its length, and the element evicted
      is the oldest one. */
  lemma AddedEvictsOldest(datas: seq<BuffData>, max: int, x: BuffData)
    requires 1 <= max && |datas| == max
    ensures Added(datas, max, x) == datas[1..] + [x]
    ensures |Added(datas, max, x)| == max
  {
  }

  /** Adds in order, starting from `datas`. */
  function AddAll(datas: seq<BuffData>, max: int, xs: seq<BuffData>): seq<BuffData> {
    if xs == [] then datas else Added(AddAll(datas, max, xs[..|xs| - 1]), max, xs[|xs| - 1])
  }

  function Min(a: int, b: int): int {
    if a <= b then a else b
  }

  /** From an empty container, any run of adds leaves exactly the latest
      `max` buffs, oldest first. */
  lemma {:induction false} AddAllKeepsLatest(max: nat, xs: seq<BuffData>)
    ensures AddAll([], max, xs) == xs[|xs| - Min(|xs|, max)..]
  {
    if xs != [] {
      var prefix := xs[..|xs| - 1];
      AddAllKeepsLatest(max, prefix);
      assert prefix[|prefix| - Min(|prefix|, max)..] + [xs[|xs| - 1]] == xs[|prefix| - Min(|prefix|, max)..];
    }
  }

  /** With a cap of 2, three adds leave the last two; with the default cap
      of 1 the container holds only the latest add. */
  lemma CapScenarios(x1: BuffData, x2: BuffData, x3: BuffData, datas: seq<BuffData>)
    requires |datas| <= 1
    ensures AddAll([], 2, [x1, x2, x3]) == [x2, x3]
    ensures Added(datas, 1, x3) == [x3]
  {
    AddAllKeepsLatest(2, [x1, x2, x3]);
    assert [x1, x2, x3][1..] == [x2, x3];
  }

  class BuffDataContainer {
    const maxBuffDatasCount: int
    var buffDatas: seq<BuffData>

    /** `new BuffDataContainer(max = 1, buffDatas = [])`. */
    constructor (maxBuffDatasCount: int := 1, buffDatas: seq<BuffData> := [])
      ensures this.maxBuffDatasCount == maxBuffDatasCount && this.buffDatas == buffDatas
    {
      this.maxBuffDatasCount := maxBuffDatasCount;
      this.buffDatas := buffDatas;
    }

    method Add(buffData: BuffData)
      modifies this
      ensures buffDatas == Added(old(buffDatas), maxBuffDatasCount, buffData)
    {
      buffDatas := buffDatas + [buffData];
      if |buffDatas| > maxBuffDatasCount {
        buffDatas := buffDatas[1..];
      }
    }

    function HasBuff(): (r: bool)
      reads this
      ensures r <==> buffDatas != []
    {
      |buffDatas| != 0
    }

    /** `pop()`: the front element is removed; on an empty container it
        throws, the container staying empty. */
    method Pop() returns (outcome: Outcome)
      modifies this
      ensures old(buffDatas) == [] ==> outcome == Raise(Error(PlainError, NoBuffMessage)) && buffDatas == []
      ensures old(buffDatas) != [] ==> outcome == Done && buffDatas == old(buffDatas)[1..]
    {
      if buffDatas == [] {
        return Raise(Error(PlainError, NoBuffMessage));
      }
      buffDatas := buffDatas[1..];
      return Done;
    }

    /** `peek(defaultData)`: the front element when there is one, otherwise
        the default when it is given, otherwise it throws. */
    function Peek(defaultData: Option<BuffData>): (r: Result<BuffData>)
      reads this
      ensures buffDatas != [] ==> r == Ok(buffDatas[0])
      ensures buffDatas == [] && defaultData.Some? ==> r == Ok(defaultData.value)
      ensures buffDatas == [] && defaultData.None? ==> r == Throw(Error(PlainError, NoBuffMessage))
    {
      if HasBuff() then Ok(buffDatas[0])
      else if defaultData.Some? then Ok(defaultData.value)
      else Throw(Error(PlainError, NoBuffMessage))
    }
  }
}
