/** The codec that hides comment metadata (position, effect) inside the
    comment text sent to the bilibili player: the text, the delimiter `/[`,
    then one character per property and a final authentication tag, each
    property moved into a range of "safe" code units. Strings are sequences
    of UTF-16 code units; numbers follow JavaScript's rules where the code
    depends on them: `NaN`, the 32-bit conversions of the shift and xor
    operators, and the truncating `%`. */
module CommentDataUtil {
  import opened Base

  /** A UTF-16 code unit. */
  type CodeUnit = x: int | 0 <= x < 0x10000

  /** `/[`. */
  const MetadataDelimiter: seq<CodeUnit> := [47, 91]

  const Comma: CodeUnit := 44

  /** A JavaScript number as far as the hash needs one: an integer, or NaN
      (the code of the first character of an empty string). */
  datatype JsNumber = Num(n: int) | NaN

  const TwoTo32: int := 0x1_0000_0000

  /** `ToInt32`: the integer taken modulo 2^32 into [-2^31, 2^31). */
  function ToInt32(x: int): (r: int)
    ensures -0x8000_0000 <= r < 0x8000_0000
    ensures (x - r) % TwoTo32 == 0
  {
    var m := x % TwoTo32;
    if m >= 0x8000_0000 then m - TwoTo32 else m
  }

  /** `ToInt32` of a number; NaN converts to 0. */
  function NumberToInt32(x: JsNumber): int {
    match x
    case Num(n) => ToInt32(n)
    case NaN => 0
  }

  /** The bitwise xor of `u` and `v` below the power of two `p`, from the
      top bit down: the bit of weight `p / 2` is set when exactly one of
      them has it, and the rest is the xor of what lies below it. */
  function BitXor(u: nat, v: nat, p: nat): nat
    decreases p
  {
    if p <= 1 then 0
    else
      var h := p / 2;
      (if (u >= h) != (v >= h) then h else 0)
        + BitXor(if u >= h then u - h else u, if v >= h then v - h else v, h)
  }

  /** `a ^ b` on two 32-bit integers: the xor of their two's complement
      images, read back as an int32. */
  function Xor32(a: int, b: int): (r: int)
    ensures -0x8000_0000 <= r < 0x8000_0000
  {
    ToInt32(BitXor(a % TwoTo32, b % TwoTo32, TwoTo32))
  }

  lemma {:induction false} BitXorBelow(u: nat, v: nat, p: nat)
    requires p >= 1
    ensures BitXor(u, v, p) < p
  {
    if p > 1 {
      var h := p / 2;
      BitXorBelow(if u >= h then u - h else u, if v >= h then v - h else v, h);
    }
  }

  /** Operands that agree on the top bit below `p` have it clear in their
      xor. */
  lemma {:induction false} XorOfSameTopBitBelow(u: nat, v: nat, p: nat)
    requires p >= 2 && (u >= p / 2) == (v >= p / 2)
    ensures BitXor(u, v, p) < p / 2
  {
    var h := p / 2;
    BitXorBelow(if u >= h then u - h else u, if v >= h then v - h else v, h);
  }

  lemma Int32Fixed(x: int)
    requires -0x8000_0000 <= x < 0x8000_0000
    ensures ToInt32(x) == x
  {
    if x >= 0 {
      assert x % TwoTo32 == x;
    } else {
      assert x % TwoTo32 == x + TwoTo32;
    }
  }

  /** The sign bit of an int32's two's complement image is its sign. */
  lemma ResidueSign(a: int)
    requires -0x8000_0000 <= a < 0x8000_0000
    ensures (a >= 0) == (a % TwoTo32 < 0x8000_0000)
  {
    if a >= 0 {
      assert a % TwoTo32 == a;
    } else {
      assert a % TwoTo32 == a + TwoTo32;
    }
  }

  /** The xor of two int32s of the same sign is never negative: their sign
      bits cancel. */
  lemma XorOfSameSignNonNegative(a: int, b: int)
    requires -0x8000_0000 <= a < 0x8000_0000 && -0x8000_0000 <= b < 0x8000_0000
    requires (a >= 0) == (b >= 0)
    ensures Xor32(a, b) >= 0
  {
    var u, v := a % TwoTo32, b % TwoTo32;
    ResidueSign(a);
    ResidueSign(b);
    XorOfSameTopBitBelow(u, v, TwoTo32);
    Int32Fixed(BitXor(u, v, TwoTo32));
  }

  /** `x % m` with the sign of the dividend, as JavaScript computes it. */
  function JsRem(x: int, m: int): (r: int)
    requires m > 0
    ensures -m < r < m
    ensures x >= 0 ==> r == x % m
  {
    if x >= 0 then x % m else -((-x) % m)
  }

  /** `ret <<= 1; ret = 31 * ret + code`: one step of the hash loop. */
  function HashStep(ret: JsNumber, code: JsNumber): JsNumber {
    var shifted := ToInt32(NumberToInt32(ret) * 2);
    match code
    case Num(c) => Num(31 * shifted + c)
    case NaN => NaN
  }

  /** The loop runs from the last code to the first, so the first code is
      folded in last. */
  function HashFold(codes: seq<JsNumber>): JsNumber {
    if codes == [] then Num(0) else HashStep(HashFold(codes[1..]), codes[0])
  }

  /** The codes the hash runs over: the given ones between two fixed
      frames. */
  function Framed(codes: seq<JsNumber>): (r: seq<JsNumber>)
    ensures |r| == |codes| + 8
    ensures r[4..|r| - 4] == codes
    ensures r[..4] == [Num(44), Num(56), Num(55), Num(104)] && r[|r| - 4..] == [Num(123), Num(99), Num(73), Num(98)]
  {
    [Num(44), Num(56), Num(55), Num(104)] + codes + [Num(123), Num(99), Num(73), Num(98)]
  }

  /** `ret >> 15` keeps the sign of `ret`. */
  lemma ShiftKeepsSign(x: int)
    requires -0x8000_0000 <= x < 0x8000_0000
    ensures -0x8000_0000 <= x / 0x8000 < 0x8000_0000
    ensures (x / 0x8000 >= 0) == (x >= 0)
  {
  }

  /** `(ret >> 15) ^ ret`, then `ret %= 0x8000`. The xor of a number and
      its own shift has a clear sign bit, so the remainder is never
      negative. */
  function Finish(ret: JsNumber): (r: int)
    ensures 0 <= r < 0x8000
  {
    var x := NumberToInt32(ret);
    ShiftKeepsSign(x);
    XorOfSameSignNonNegative(x / 0x8000, x);
    JsRem(Xor32(x / 0x8000, x), 0x8000)
  }

  function HashOf(codes: seq<JsNumber>): (r: int)
    ensures 0 <= r < 0x8000
  {
    Finish(HashFold(Framed(codes)))
  }

  /** `message.charCodeAt(0) % 0x8000`: NaN for the empty message. */
  function FirstCharCode(message: seq<CodeUnit>): JsNumber {
    if message == [] then NaN else Num(message[0] % 0x8000)
  }

  function Numbers(properties: seq<int>): (r: seq<JsNumber>)
    ensures |r| == |properties| && forall i :: 0 <= i < |properties| ==> r[i] == Num(properties[i])
  {
    seq(|properties|, i requires 0 <= i < |properties| => Num(properties[i]))
  }

  /** The tag of a message and its properties. */
  function MacOf(message: seq<CodeUnit>, properties: seq<int>): (r: int)
    ensures 0 <= r < 0x8000
  {
    HashOf([FirstCharCode(message)] + Numbers(properties))
  }

  /** A NaN makes the rest of the codes irrelevant: it turns the running
      value into NaN, which the next shift turns into 0. */
  lemma {:induction false} NaNForgetsLaterCodes(front: seq<JsNumber>, rest1: seq<JsNumber>, rest2: seq<JsNumber>)
    ensures HashFold(front + [NaN] + rest1) == HashFold(front + [NaN] + rest2)
  {
    if front == [] {
      assert ([NaN] + rest1)[1..] == rest1;
      assert ([NaN] + rest2)[1..] == rest2;
    } else {
      NaNForgetsLaterCodes(front[1..], rest1, rest2);
      assert (front + [NaN] + rest1)[1..] == front[1..] + [NaN] + rest1;
      assert (front + [NaN] + rest2)[1..] == front[1..] + [NaN] + rest2;
    }
  }

  /** The tag of an empty message is the same whatever its properties, so
      it authenticates nothing. */
  lemma EmptyMessageTagIgnoresProperties(properties1: seq<int>, properties2: seq<int>)
    ensures MacOf([], properties1) == MacOf([], properties2)
  {
    var front := [Num(44), Num(56), Num(55), Num(104)];
    var back := [Num(123), Num(99), Num(73), Num(98)];
    assert Framed([NaN] + Numbers(properties1)) == front + [NaN] + (Numbers(properties1) + back);
    assert Framed([NaN] + Numbers(properties2)) == front + [NaN] + (Numbers(properties2) + back);
    NaNForgetsLaterCodes(front, Numbers(properties1) + back, Numbers(properties2) + back);
  }

  /** `hash(...codes)`. */
  method Hash(codes: seq<JsNumber>) returns (r: int)
    ensures r == HashOf(codes)
    ensures 0 <= r < 0x8000
  {
    var framed := [Num(44), Num(56), Num(55), Num(104)] + codes + [Num(123), Num(99), Num(73), Num(98)];
    var ret := Num(0);
    var i := |framed|;
    while i > 0
      invariant 0 <= i <= |framed|
      invariant ret == HashFold(framed[i..])
    {
      i := i - 1;
      assert framed[i..][1..] == framed[i + 1..];
      var shifted := ToInt32(NumberToInt32(ret) * 2);
      ret := match framed[i] case Num(c) => Num(31 * shifted + c) case NaN => NaN;
    }
    var x := NumberToInt32(ret);
    ShiftKeepsSign(x);
    XorOfSameSignNonNegative(x / 0x8000, x);
    r := JsRem(Xor32(x / 0x8000, x), 0x8000);
  }

  /** `mac(message, properties)`. */
  method Mac(message: seq<CodeUnit>, properties: seq<int>) returns (r: int)
    ensures r == MacOf(message, properties)
  {
    var firstCharCode := if message == [] then NaN else Num(message[0] % 0x8000);
    r := Hash([firstCharCode] + Numbers(properties));
  }

  // Error messages

  function DigitsOf(n: nat): string {
    if n < 10 then [('0' as int + n) as char] else DigitsOf(n / 10) + [('0' as int + n % 10) as char]
  }

  /** The decimal text of an integer. */
  function NumberText(n: int): string {
    if n < 0 then "-" + DigitsOf(-n) else DigitsOf(n)
  }

  /** The text of an array of numbers: the numbers joined by commas. */
  function Joined(codes: seq<int>): string {
    if codes == [] then "" else if |codes| == 1 then NumberText(codes[0])
    else NumberText(codes[0]) + "," + Joined(codes[1..])
  }

  function InvalidCodes(codes: seq<int>): Error {
    Error(PlainError, "Invalid char codes: " + Joined(codes))
  }

  // The safe ranges

  /** The code every property travels as. */
  function SafeCode(code: int): int {
    (if code < 0x6000 then 0x4000 else 0x5000) + code
  }

  /** A code unit decoding accepts. */
  predicate IsSafe(code: int) {
    (0x4000 <= code <= 0x9fff) || (0xb000 <= code <= 0xcfff)
  }

  function ActualCode(code: int): int {
    code - (if code < 0xb000 then 0x4000 else 0x5000)
  }

  /** The two maps are inverse bijections between the property range
      [0, 0x8000) and the safe code units. */
  lemma SafeCodeInverse(code: int, unit: int)
    ensures 0 <= code < 0x8000 ==> IsSafe(SafeCode(code)) && ActualCode(SafeCode(code)) == code
    ensures IsSafe(unit) ==> 0 <= ActualCode(unit) < 0x8000 && SafeCode(ActualCode(unit)) == unit
  {
  }

  /** `toSafeCharCodes(codes)` as written: it throws when SOME code is below
      0x8000, although every property is meant to lie in [0, 0x8000). */
  function ToSafeCharCodesAsWritten(codes: seq<int>): (r: Result<seq<int>>)
    ensures r.Throw? <==> exists i :: 0 <= i < |codes| && codes[i] < 0x8000
  {
    if exists i :: 0 <= i < |codes| && codes[i] < 0x8000 then Throw(InvalidCodes(codes))
    else Ok(seq(|codes|, i requires 0 <= i < |codes| => SafeCode(codes[i])))
  }

  /** `toSafeCharCodes(codes)` with the guard the comments ask for: it
      throws when some code lies outside [0, 0x8000), and otherwise moves
      every code into the safe range. */
  function ToSafeCharCodes(codes: seq<int>): (r: Result<seq<int>>)
    ensures r.Throw? <==> exists i :: 0 <= i < |codes| && !(0 <= codes[i] < 0x8000)
    ensures r.Throw? ==> r.error == InvalidCodes(codes)
    ensures r.Ok? ==> |r.value| == |codes| && forall i :: 0 <= i < |codes| ==> IsSafe(r.value[i]) && ActualCode(r.value[i]) == codes[i]
  {
    if exists i :: 0 <= i < |codes| && !(0 <= codes[i] < 0x8000) then Throw(InvalidCodes(codes))
    else Ok(seq(|codes|, i requires 0 <= i < |codes| => SafeCode(codes[i])))
  }

  /** `toActualCharCodes(codes)`: every code must be safe, and each is
      moved back. */
  function ToActualCharCodes(codes: seq<int>): (r: Result<seq<int>>)
    ensures r.Throw? <==> exists i :: 0 <= i < |codes| && !IsSafe(codes[i])
    ensures r.Throw? ==> r.error == InvalidCodes(codes)
    ensures r.Ok? ==> |r.value| == |codes| && forall i :: 0 <= i < |codes| ==> r.value[i] == ActualCode(codes[i])
  {
    if !(forall i :: 0 <= i < |codes| ==> IsSafe(codes[i])) then Throw(InvalidCodes(codes))
    else Ok(seq(|codes|, i requires 0 <= i < |codes| => ActualCode(codes[i])))
  }

  /** Decoding what the corrected encoder produced gives back the codes. */
  lemma {:induction false} ActualAfterSafe(codes: seq<int>)
    requires ToSafeCharCodes(codes).Ok?
    ensures ToActualCharCodes(ToSafeCharCodes(codes).value) == Ok(codes)
  {
    var safe := ToSafeCharCodes(codes).value;
    assert ToActualCharCodes(safe).Ok?;
    assert ToActualCharCodes(safe).value == codes;
  }

  /** `String.fromCharCode(...codes)`: each number taken modulo 2^16. */
  function FromCharCodes(codes: seq<int>): (r: seq<CodeUnit>)
    ensures |r| == |codes|
    ensures forall i :: 0 <= i < |codes| && 0 <= codes[i] < 0x10000 ==> r[i] == codes[i]
  {
    seq(|codes|, i requires 0 <= i < |codes| => codes[i] % 0x10000)
  }

  // Text operations

  /** `d` occurs in `s` at position `j`. */
  predicate OccursAt(s: seq<CodeUnit>, d: seq<CodeUnit>, j: int) {
    0 <= j && j + |d| <= |s| && s[j..j + |d|] == d
  }

  /** `s.lastIndexOf(d)` for a non-empty `d`: the last position where `d`
      occurs, or -1. */
  function LastIndexOf(s: seq<CodeUnit>, d: seq<CodeUnit>): (r: int)
    requires d != []
    ensures r == -1 || OccursAt(s, d, r)
    ensures forall j :: r < j ==> !OccursAt(s, d, j)
  {
    if |s| < |d| then -1
    else if s[|s| - |d|..] == d then |s| - |d|
    else
      var r := LastIndexOf(s[..|s| - 1], d);
      LastOccurrenceInPrefix(s, s[..|s| - 1], d, r);
      r
  }

  /** When `d` does not end `s`, the last occurrence in `s` without its last
      element is the last occurrence in `s`. */
  lemma LastOccurrenceInPrefix(s: seq<CodeUnit>, prefix: seq<CodeUnit>, d: seq<CodeUnit>, r: int)
    requires d != [] && |s| >= |d| && s[|s| - |d|..] != d && prefix == s[..|s| - 1]
    requires r == -1 || OccursAt(prefix, d, r)
    requires forall j :: r < j ==> !OccursAt(prefix, d, j)
    ensures r == -1 || OccursAt(s, d, r)
    ensures forall j :: r < j ==> !OccursAt(s, d, j)
  {
    if r != -1 {
      OccursInPrefix(s, d, r);
    }
    forall j | r < j
      ensures !OccursAt(s, d, j)
    {
      if 0 <= j && j + |d| < |s| {
        OccursInPrefix(s, d, j);
      }
    }
  }

  /** An occurrence that ends before the last element is one in the
      prefix without it, and the other way round. */
  lemma OccursInPrefix(s: seq<CodeUnit>, d: seq<CodeUnit>, j: int)
    requires s != [] && 0 <= j && j + |d| < |s|
    ensures OccursAt(s, d, j) <==> OccursAt(s[..|s| - 1], d, j)
  {
    assert s[..|s| - 1][j..j + |d|] == s[j..j + |d|];
  }

  /** `pieces.join(',')`. */
  function JoinedByComma(pieces: seq<seq<CodeUnit>>): seq<CodeUnit>
    requires pieces != []
  {
    if |pieces| == 1 then pieces[0] else pieces[0] + [Comma] + JoinedByComma(pieces[1..])
  }

  /** `s.split(',')`: the pieces between commas, at least one. */
  function Split(s: seq<CodeUnit>): (r: seq<seq<CodeUnit>>)
    ensures |r| >= 1
  {
    if s == [] then [[]]
    else
      var rest := Split(s[1..]);
      if s[0] == Comma then [[]] + rest else [[s[0]] + rest[0]] + rest[1..]
  }

  /** No piece of `Split(s)` holds a comma, and joining the pieces with
      commas gives back `s`. */
  lemma {:induction false} SplitJoinsBack(s: seq<CodeUnit>)
    ensures forall k :: 0 <= k < |Split(s)| ==> Comma !in Split(s)[k]
    ensures JoinedByComma(Split(s)) == s
  {
    if s != [] {
      SplitJoinsBack(s[1..]);
      var rest := Split(s[1..]);
      if s[0] == Comma {
        assert ([[]] + rest)[1..] == rest;
      } else {
        var r := [[s[0]] + rest[0]] + rest[1..];
        assert |rest| > 1 ==> r[1..] == rest[1..];
        assert [s[0]] + s[1..] == s;
      }
    }
  }

  /** Splitting comma-free pieces joined by commas gives back the pieces;
      with `SplitJoinsBack`, the two are inverse. */
  lemma {:induction false} SplitOfJoinedByComma(pieces: seq<seq<CodeUnit>>)
    requires pieces != [] && forall k :: 0 <= k < |pieces| ==> Comma !in pieces[k]
    ensures Split(JoinedByComma(pieces)) == pieces
  {
    if |pieces| > 1 {
      SplitOfJoinedByComma(pieces[1..]);
      SplitOfCommaFree(pieces[0], JoinedByComma(pieces[1..]));
      assert pieces == [pieces[0]] + pieces[1..];
    } else {
      SplitOfCommaFreeAlone(pieces[0]);
    }
  }

  /** A comma-free text is one piece. */
  lemma {:induction false} SplitOfCommaFreeAlone(w: seq<CodeUnit>)
    requires Comma !in w
    ensures Split(w) == [w]
  {
    if w != [] {
      SplitOfCommaFreeAlone(w[1..]);
      assert [w[0]] + w[1..] == w;
    }
  }

  /** A comma-free text before a comma is the first piece, and the pieces
      of what follows the comma come after it. */
  lemma {:induction false} SplitOfCommaFree(w: seq<CodeUnit>, rest: seq<CodeUnit>)
    requires Comma !in w
    ensures Split(w + [Comma] + rest) == [w] + Split(rest)
  {
    var s := w + [Comma] + rest;
    if w == [] {
      assert s[0] == Comma && s[1..] == rest;
    } else {
      var s' := w[1..] + [Comma] + rest;
      assert s[0] == w[0] && w[0] != Comma && s[1..] == s';
      SplitOfCommaFree(w[1..], rest);
      var tail := Split(s');
      assert tail == [w[1..]] + Split(rest);
      assert Split(s) == [[w[0]] + tail[0]] + tail[1..];
      assert [w[0]] + w[1..] == w;
    }
  }

  /** An attribute is a piece of the comma-separated list; it is missing
      (`undefined`) when the list is too short. */
  type Attribute = Option<seq<CodeUnit>>

  function Field(fields: seq<seq<CodeUnit>>, k: nat): Attribute {
    if k < |fields| then Some(fields[k]) else None
  }

  datatype EffectData = EffectData(effectType: int, parameter: int)

  /** The comment data of a parsed comment. The size, colour, send time and
      user id are the 3rd, 4th, 5th and 7th attribute; their conversion by
      `Number` and `parseInt(_, 16)` is not part of this model. */
  datatype ParsedCommentData = ParsedCommentData(
    size: Attribute,
    color: Attribute,
    sendTime: Attribute,
    userId: Attribute,
    text: seq<CodeUnit>,
    positionX: int,
    positionY: int,
    effectData: Option<EffectData>)

  /** The data of a comment whose metadata checked out. */
  function CommentDataOf(attributes: seq<CodeUnit>, text: seq<CodeUnit>, properties: seq<int>): (r: Option<ParsedCommentData>)
    ensures r.Some? <==> |properties| == 2 || |properties| == 4
    ensures r.Some? ==> r.value.text == text
  {
    var fields := Split(attributes);
    if |properties| == 2 then
      Some(ParsedCommentData(Field(fields, 2), Field(fields, 3), Field(fields, 4), Field(fields, 6),
                             text, properties[0], properties[1], None))
    else if |properties| == 4 then
      Some(ParsedCommentData(Field(fields, 2), Field(fields, 3), Field(fields, 4), Field(fields, 6),
                             text, properties[0], properties[1], Some(EffectData(properties[2], properties[3]))))
    else None
  }

  /** `parseFromXmlStrings(attributes, text)`: null without a delimiter,
      with an unsafe metadata code, without a tag, with a tag that does not
      authenticate the text and the other properties, or with a property
      count other than 2 or 4. */
  function Parse(attributes: seq<CodeUnit>, text: seq<CodeUnit>): Option<ParsedCommentData> {
    var index := LastIndexOf(text, MetadataDelimiter);
    if index == -1 then None
    else
      var metadata := text[index + |MetadataDelimiter|..];
      match ToActualCharCodes(metadata)
      case Throw(_) => None
      case Ok(properties) => Authenticated(attributes, text[..index], properties)
  }

  /** The decoded properties of a comment text: the last one is popped as the
      tag, which must authenticate the text and the others. */
  function Authenticated(attributes: seq<CodeUnit>, commentText: seq<CodeUnit>, properties: seq<int>): (r: Option<ParsedCommentData>)
    ensures r.Some? ==> r.value.text == commentText
    ensures r.Some? <==>
      && properties != []
      && properties[|properties| - 1] == MacOf(commentText, properties[..|properties| - 1])
      && (|properties| - 1 == 2 || |properties| - 1 == 4)
  {
    if properties == [] then None
    else
      var tag := properties[|properties| - 1];
      var rest := properties[..|properties| - 1];
      if tag != MacOf(commentText, rest) then None
      else CommentDataOf(attributes, commentText, rest)
  }

  method ParseFromXmlStrings(attributes: seq<CodeUnit>, text: seq<CodeUnit>) returns (r: Option<ParsedCommentData>)
    ensures r == Parse(attributes, text)
  {
    var indexMetadata := LastIndexOf(text, MetadataDelimiter);
    if indexMetadata == -1 {
      return None;
    }
    var metadataText := text[indexMetadata + |MetadataDelimiter|..];
    var properties: seq<int> := [];
    for i := 0 to |metadataText|
      invariant properties == metadataText[..i]
    {
      properties := properties + [metadataText[i]];
    }
    assert properties == metadataText;
    var actual := ToActualCharCodes(properties);
    if actual.Throw? {
      return None;
    }
    properties := actual.value;
    var commentText := text[..indexMetadata];
    if properties == [] {
      return None;
    }
    var tag := properties[|properties| - 1];
    properties := properties[..|properties| - 1];
    var tag2 := Mac(commentText, properties);
    if tag != tag2 {
      return None;
    }
    r := CommentDataOf(attributes, commentText, properties);
  }

  /** The properties before the tag: the coordinates, then the effect's
      type and parameter when there is an effect. */
  function Properties(x: int, y: int, effect: Option<EffectData>): (r: seq<int>)
    ensures |r| == 2 || |r| == 4
  {
    [x, y] + (if effect.Some? then [effect.value.effectType, effect.value.parameter] else [])
  }

  /** `generateCommentMetadata` as written. */
  function GenerateAsWritten(text: seq<CodeUnit>, x: int, y: int, effect: Option<EffectData>): Result<seq<CodeUnit>> {
    var properties := Properties(x, y, effect);
    var tag := MacOf(text, properties);
    match ToSafeCharCodesAsWritten(properties + [tag])
    case Throw(e) => Throw(e)
    case Ok(encoded) => Ok(FromCharCodes(encoded))
  }

  /** As written the encoder can never succeed: the tag is always below
      0x8000, so the inverted guard always fires, and injecting metadata
      into any comment throws. */
  lemma GenerateAsWrittenAlwaysThrows(text: seq<CodeUnit>, x: int, y: int, effect: Option<EffectData>)
    ensures GenerateAsWritten(text, x, y, effect).Throw?
    ensures GenerateAsWritten(text, x, y, effect).error
      == InvalidCodes(Properties(x, y, effect) + [MacOf(text, Properties(x, y, effect))])
  {
    var properties := Properties(x, y, effect);
    var codes := properties + [MacOf(text, properties)];
    assert codes[|codes| - 1] < 0x8000;
  }

  /** `generateCommentMetadata` with the corrected guard. */
  function Generate(text: seq<CodeUnit>, x: int, y: int, effect: Option<EffectData>): Result<seq<CodeUnit>> {
    var properties := Properties(x, y, effect);
    var tag := MacOf(text, properties);
    match ToSafeCharCodes(properties + [tag])
    case Throw(e) => Throw(e)
    case Ok(encoded) => Ok(FromCharCodes(encoded))
  }

  /** `buildInjectedCommentText`: the text, the delimiter, the metadata. */
  function Build(text: seq<CodeUnit>, x: int, y: int, effect: Option<EffectData>): Result<seq<CodeUnit>> {
    match Generate(text, x, y, effect)
    case Throw(e) => Throw(e)
    case Ok(metadata) => Ok(text + MetadataDelimiter + metadata)
  }

  predicate InPropertyRange(code: int) {
    0 <= code < 0x8000
  }

  /** The corrected encoder fails exactly when a property lies outside
      [0, 0x8000); the tag always lies inside. */
  lemma GenerateFailsIff(text: seq<CodeUnit>, x: int, y: int, effect: Option<EffectData>)
    ensures var properties := Properties(x, y, effect);
      Generate(text, x, y, effect).Throw? <==>
        !(forall i :: 0 <= i < |properties| ==> InPropertyRange(properties[i]))
  {
    var properties := Properties(x, y, effect);
    var codes := properties + [MacOf(text, properties)];
    assert forall i :: 0 <= i < |properties| ==> codes[i] == properties[i];
    assert codes[|properties|] == MacOf(text, properties);
  }

  /** When the metadata holds only safe code units, the last delimiter of
      the injected text is the one right after the comment text: no safe
      code unit is a `/`. */
  lemma DelimiterAfterText(text: seq<CodeUnit>, metadata: seq<CodeUnit>)
    requires forall i :: 0 <= i < |metadata| ==> IsSafe(metadata[i])
    ensures LastIndexOf(text + MetadataDelimiter + metadata, MetadataDelimiter) == |text|
  {
    var built := text + MetadataDelimiter + metadata;
    assert built[|text|..|text| + 2] == MetadataDelimiter;
    assert OccursAt(built, MetadataDelimiter, |text|);
    var index := LastIndexOf(built, MetadataDelimiter);
    assert built[index] == built[index..index + 2][0];
    NoSlashAfter(text, metadata);
  }

  lemma NoSlashAfter(text: seq<CodeUnit>, metadata: seq<CodeUnit>)
    requires forall i :: 0 <= i < |metadata| ==> IsSafe(metadata[i])
    ensures forall j :: |text| < j < |text| + 2 + |metadata| ==> (text + MetadataDelimiter + metadata)[j] != 47
  {
    var built := text + MetadataDelimiter + metadata;
    forall j | |text| < j < |built|
      ensures built[j] != 47
    {
      if j == |text| + 1 {
        assert built[j] == 91;
      } else {
        assert built[j] == metadata[j - |text| - 2];
      }
    }
  }

  /** Parsing an injected text whose last property is the tag of the text
      and the others gives the comment data of those others. */
  lemma ParseInjected(attributes: seq<CodeUnit>, text: seq<CodeUnit>, codes: seq<int>)
    requires codes != [] && ToSafeCharCodes(codes).Ok?
    requires codes[|codes| - 1] == MacOf(text, codes[..|codes| - 1])
    ensures Parse(attributes, text + MetadataDelimiter + FromCharCodes(ToSafeCharCodes(codes).value))
      == CommentDataOf(attributes, text, codes[..|codes| - 1])
  {
    var encoded := ToSafeCharCodes(codes).value;
    var metadata := FromCharCodes(encoded);
    assert metadata == encoded;
    var built := text + MetadataDelimiter + metadata;
    DelimiterAfterText(text, metadata);
    assert built[|text| + 2..] == metadata;
    assert built[..|text|] == text;
    ActualAfterSafe(codes);
    ParseAt(attributes, built, |text|, codes);
  }

  /** Parsing once the delimiter position and the decoded metadata are known. */
  lemma ParseAt(attributes: seq<CodeUnit>, s: seq<CodeUnit>, index: int, properties: seq<int>)
    requires 0 <= index && LastIndexOf(s, MetadataDelimiter) == index && index + 2 <= |s|
    requires ToActualCharCodes(s[index + 2..]) == Ok(properties)
    requires properties != [] && properties[|properties| - 1] == MacOf(s[..index], properties[..|properties| - 1])
    ensures Parse(attributes, s) == CommentDataOf(attributes, s[..index], properties[..|properties| - 1])
  {
  }

  /** A comment whose metadata decodes but whose last property is not the
      tag of the text and the other properties is rejected, and so is one
      whose metadata decodes to no property at all. */
  lemma ForgedTagRejected(attributes: seq<CodeUnit>, s: seq<CodeUnit>, index: int, properties: seq<int>)
    requires 0 <= index && LastIndexOf(s, MetadataDelimiter) == index && index + 2 <= |s|
    requires ToActualCharCodes(s[index + 2..]) == Ok(properties)
    requires properties == [] || properties[|properties| - 1] != MacOf(s[..index], properties[..|properties| - 1])
    ensures Parse(attributes, s).None?
  {
  }

  /** Round trip: a comment text built with in-range properties parses
      back to the original text, coordinates and effect, with the
      attributes taken from the attribute list. */
  lemma ParseAfterBuild(attributes: seq<CodeUnit>, text: seq<CodeUnit>, x: int, y: int, effect: Option<EffectData>)
    requires forall i :: 0 <= i < |Properties(x, y, effect)| ==> InPropertyRange(Properties(x, y, effect)[i])
    ensures Build(text, x, y, effect).Ok?
    ensures var fields := Split(attributes);
      Parse(attributes, Build(text, x, y, effect).value)
        == Some(ParsedCommentData(Field(fields, 2), Field(fields, 3), Field(fields, 4), Field(fields, 6), text, x, y, effect))
  {
    var properties := Properties(x, y, effect);
    var codes := properties + [MacOf(text, properties)];
    assert forall i :: 0 <= i < |codes| ==> InPropertyRange(codes[i]);
    assert ToSafeCharCodes(codes).Ok?;
    assert codes[..|codes| - 1] == properties;
    ParseInjected(attributes, text, codes);
    DataOfProperties(attributes, text, x, y, effect);
  }

  /** The data of the properties `generateCommentMetadata` lays out. */
  lemma DataOfProperties(attributes: seq<CodeUnit>, text: seq<CodeUnit>, x: int, y: int, effect: Option<EffectData>)
    ensures var fields := Split(attributes);
      CommentDataOf(attributes, text, Properties(x, y, effect))
        == Some(ParsedCommentData(Field(fields, 2), Field(fields, 3), Field(fields, 4), Field(fields, 6), text, x, y, effect))
  {
    var properties := Properties(x, y, effect);
    if effect.Some? {
      assert properties == [x, y, effect.value.effectType, effect.value.parameter];
    } else {
      assert properties == [x, y];
    }
  }

  /** Without a delimiter there is nothing to parse; otherwise the comment
      text is everything before the last delimiter. */
  lemma ParseSplitsAtLastDelimiter(attributes: seq<CodeUnit>, text: seq<CodeUnit>)
    ensures LastIndexOf(text, MetadataDelimiter) == -1 ==> Parse(attributes, text).None?
    ensures Parse(attributes, text).Some? ==>
      var index := LastIndexOf(text, MetadataDelimiter);
      && index >= 0 && Parse(attributes, text).value.text == text[..index]
      && (forall j :: index < j ==> !OccursAt(text, MetadataDelimiter, j))
  {
  }

  /** A metadata code unit outside the safe ranges makes parsing fail. */
  lemma UnsafeMetadataRejected(attributes: seq<CodeUnit>, text: seq<CodeUnit>, k: int)
    requires LastIndexOf(text, MetadataDelimiter) >= 0
    requires LastIndexOf(text, MetadataDelimiter) + 2 <= k < |text| && !IsSafe(text[k])
    ensures Parse(attributes, text).None?
  {
    var index := LastIndexOf(text, MetadataDelimiter);
    var metadata := text[index + 2..];
    assert metadata[k - index - 2] == text[k];
    assert ToActualCharCodes(metadata).Throw?;
  }

  /** `buildInjectedCommentText`. */
  method BuildInjectedCommentText(text: seq<CodeUnit>, x: int, y: int, effect: Option<EffectData>) returns (r: Result<seq<CodeUnit>>)
    ensures r == Build(text, x, y, effect)
  {
    var metadata := GenerateCommentMetadata(text, x, y, effect);
    if metadata.Throw? {
      return Throw(metadata.error);
    }
    return Ok(text + MetadataDelimiter + metadata.value);
  }

  /** `generateCommentMetadata` with the corrected guard. */
  method GenerateCommentMetadata(text: seq<CodeUnit>, x: int, y: int, effect: Option<EffectData>) returns (r: Result<seq<CodeUnit>>)
    ensures r == Generate(text, x, y, effect)
  {
    var properties := [x, y];
    if effect.Some? {
      properties := properties + [effect.value.effectType, effect.value.parameter];
    }
    assert properties == Properties(x, y, effect);
    var tag := Mac(text, properties);
    properties := properties + [tag];
    var encodedProperties := ToSafeCharCodes(properties);
    if encodedProperties.Throw? {
      return Throw(encodedProperties.error);
    }
    return Ok(FromCharCodes(encodedProperties.value));
  }
}
