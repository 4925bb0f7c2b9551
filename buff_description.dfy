/** The notification text for a buff found in a chest. */
module BuffDescription {
  import opened Base
  import opened Texts
  import opened BuffDataContainer

  const NoneKey: string := "main.buff.description.none"
  const ChromaticKey: string := "main.buff.description.chromatic"
  const HastyKey: string := "main.buff.description.hasty"

  /** The text key of a buff type, if it has one. */
  function KeyFor(buffType: BuffType): (r: Option<string>)
    ensures r.Some? <==> !buffType.Other?
    ensures buffType == NONE ==> r == Some(NoneKey)
    ensures buffType == CHROMATIC ==> r == Some(ChromaticKey)
    ensures buffType == HASTY ==> r == Some(HastyKey)
  {
    match buffType
    case NONE => Some(NoneKey)
    case CHROMATIC => Some(ChromaticKey)
    case HASTY => Some(HastyKey)
    case Other(_) => None
  }

  /** `for(data)`: the text of the buff type's key; a type outside the enum
      throws a `TypeError` showing the datum (`shown` is its string form). */
  function For(data: BuffData, shown: string): (r: Result<string>)
    ensures data.buffType.Other? ==> r == Throw(Error(TypeError, "Invalid buff data: " + shown))
    ensures !data.buffType.Other? ==> r == ForName(KeyFor(data.buffType).value)
  {
    match KeyFor(data.buffType)
    case None => Throw(Error(TypeError, "Invalid buff data: " + shown))
    case Some(key) => ForName(key)
  }

  /** The three buff keys are in the table with non-empty texts, so a known
      buff type always has a description, never the not-found error, and
      the three descriptions differ. */
  lemma KnownBuffsAreDescribed(data: BuffData, shown: string)
    ensures !data.buffType.Other? ==> For(data, shown).Ok? && For(data, shown).value != ""
    ensures For(BuffData(NONE, 0), shown) == Ok("我捡到了……一团空气")
    ensures For(BuffData(CHROMATIC, 0), shown) == Ok("下一条弹幕一定会很绚丽")
    ensures For(BuffData(HASTY, 0), shown) == Ok("现在我健步如飞了！")
  {
  }
}
