/** The checkout adapter's reader of IPv6 text and its private-address filter, next to the broker's own filter. */
module Addresses {
  import opened Results

  // ----- text -----

  /** `text.split(c)`: at least one piece, the empty text included. */
  function Split(text: string, c: char): (parts: seq<string>)
    ensures |parts| > 0
  {
    if text == "" then [""]
    else
      var rest := Split(text[1..], c);
      if text[0] == c then [""] + rest else [[text[0]] + rest[0]] + rest[1..]
  }

  function Join(parts: seq<string>, c: char): string {
    if |parts| == 0 then "" else if |parts| == 1 then parts[0] else parts[0] + [c] + Join(parts[1..], c)
  }

  /** `text.split("::")`. */
  function SplitDouble(text: string): (parts: seq<string>)
    ensures |parts| > 0
  {
    if |text| < 2 then [text]
    else if text[0] == ':' && text[1] == ':' then [""] + SplitDouble(text[2..])
    else
      var rest := SplitDouble(text[1..]);
      [[text[0]] + rest[0]] + rest[1..]
  }

  function BeforeFirst(text: string, c: char): string {
    if text == "" || text[0] == c then "" else [text[0]] + BeforeFirst(text[1..], c)
  }

  /** `lastIndexOf`: the number of characters before the last `c`, if there is one. */
  function LastIndex(text: string, c: char): (r: Option<nat>)
    ensures r.Some? ==> r.value < |text| && text[r.value] == c
  {
    if text == "" then None
    else if text[|text| - 1] == c then Some(|text| - 1)
    else LastIndex(text[..|text| - 1], c)
  }

  function LowerChar(c: char): char {
    if 'A' <= c <= 'Z' then (c as int - 'A' as int + 'a' as int) as char else c
  }

  function Lower(text: string): (r: string)
    ensures |r| == |text| && forall i :: 0 <= i < |text| ==> r[i] == LowerChar(text[i])
  {
    if text == "" then "" else [LowerChar(text[0])] + Lower(text[1..])
  }

  // ----- numbers -----

  function HexDigit(c: char): Option<nat> {
    if '0' <= c <= '9' then Some(c as int - '0' as int)
    else if 'a' <= c <= 'f' then Some(c as int - 'a' as int + 10)
    else None
  }

  /** `Number.parseInt(text, 16)` on text of digits only; any other text is no number. */
  function ParseHex(text: string): Option<nat> {
    if text == "" then None
    else if |text| == 1 then HexDigit(text[0])
    else
      var high, low := ParseHex(text[..|text| - 1]), HexDigit(text[|text| - 1]);
      if high.None? || low.None? then None else Some(16 * high.value + low.value)
  }

  function HexChar(n: nat): char
    requires n < 16
  {
    if n < 10 then ('0' as int + n) as char else ('a' as int + n - 10) as char
  }

  /** `n.toString(16)`. */
  function Hex(n: nat): (text: string)
    ensures text != ""
  {
    if n < 16 then [HexChar(n)] else Hex(n / 16) + [HexChar(n % 16)]
  }

  function ParseDecimal(text: string): Option<nat> {
    if text == "" then None
    else if !('0' <= text[|text| - 1] <= '9') then None
    else
      var low := text[|text| - 1] as int - '0' as int;
      if |text| == 1 then Some(low)
      else
        var high := ParseDecimal(text[..|text| - 1]);
        if high.None? then None else Some(10 * high.value + low)
  }

  // ----- the reader -----

  function ParseAll(parts: seq<string>, parse: string -> Option<nat>): Option<seq<nat>> {
    if |parts| == 0 then Some([])
    else
      var first, rest := parse(parts[0]), ParseAll(parts[1..], parse);
      if first.None? || rest.None? then None else Some([first.value] + rest.value)
  }

  /** Four octets as two hexadecimal groups. */
  function HexGroups(octets: Option<seq<nat>>): Option<string> {
    if octets.None? || |octets.value| != 4 || exists o :: o in octets.value && o > 255 then None
    else
      var o := octets.value;
      Some(Hex(256 * o[0] + o[1]) + ":" + Hex(256 * o[2] + o[3]))
  }

  /** A dotted tail becomes two hexadecimal groups. */
  function Normalize(text: string): Option<string> {
    var colon := LastIndex(text, ':');
    if '.' !in text || colon.None? then Some(text)
    else
      match HexGroups(ParseAll(Split(text[colon.value + 1..], '.'), ParseDecimal))
      case None => None
      case Some(groups) => Some(text[..colon.value] + ":" + groups)
  }

  function Pieces(half: string): seq<string> {
    if half == "" then [] else Split(half, ':')
  }

  function Zeros(n: nat): seq<string> {
    if n == 0 then [] else ["0"] + Zeros(n - 1)
  }

  function BytesOf(groups: seq<nat>): seq<nat> {
    if |groups| == 0 then [] else [groups[0] / 256, groups[0] % 256] + BytesOf(groups[1..])
  }

  /** `ipv6Bytes`, for text that `isIP` takes for an IPv6 address once its zone is cut off. */
  function Ipv6Bytes(address: string): Option<seq<nat>> {
    match Normalize(Lower(BeforeFirst(address, '%')))
    case None => None
    case Some(normalized) =>
      var halves := SplitDouble(normalized);
      if |halves| > 2 then None
      else
        var left := Pieces(halves[0]);
        var right := if |halves| == 2 then Pieces(halves[1]) else [];
        var missing := 8 - |left| - |right|;
        if (|halves| == 1 && missing != 0) || (|halves| == 2 && missing < 1) then None
        else
          match ParseAll(left + Zeros(missing) + right, ParseHex)
          case None => None
          case Some(groups) => if exists g :: g in groups && g > 0xffff then None else Some(BytesOf(groups))
  }

  // ----- the grammar of IPv6 text, section 2.2 of RFC 4291 -----

  predicate HexDigitAnyCase(c: char) {
    HexDigit(LowerChar(c)).Some?
  }

  /** One to four hexadecimal digits of either case. */
  predicate GroupText(g: string) {
    1 <= |g| <= 4 && forall i :: 0 <= i < |g| ==> HexDigitAnyCase(g[i])
  }

  predicate OctetText(o: string) {
    1 <= |o| <= 3 && (forall i :: 0 <= i < |o| ==> '0' <= o[i] <= '9') && ParseDecimal(o).Some? && ParseDecimal(o).value <= 255
  }

  /** One way of writing an address: groups before and after a possible `::`, a possible dotted tail, a possible zone. */
  datatype Spelling = Spelling(left: seq<string>, right: seq<string>, compressed: bool, tail: seq<string>, zone: Option<string>) {

    predicate Valid() {
      && (forall g :: g in left + right ==> GroupText(g))
      && (|tail| == 0 || (|tail| == 4 && forall o :: o in tail ==> OctetText(o)))
      && (if compressed then Width() <= 7 else right == [] && Width() == 8)
    }

    /** Groups written out. */
    function Width(): nat {
      |left| + |right| + |tail| / 2
    }
  }

  function GroupValue(g: string): nat
    requires GroupText(g)
  {
    var parsed := ParseHex(Lower(g));
    if parsed.Some? then parsed.value else 0
  }

  function Values(groups: seq<string>): (r: seq<nat>)
    requires forall g :: g in groups ==> GroupText(g)
    ensures |r| == |groups|
  {
    if |groups| == 0 then [] else [GroupValue(groups[0])] + Values(groups[1..])
  }

  function OctetValue(o: string): nat {
    var parsed := ParseDecimal(o);
    if parsed.Some? then parsed.value else 0
  }

  function TailValues(tail: seq<string>): seq<nat>
    requires |tail| == 0 || |tail| == 4
  {
    if |tail| == 0 then []
    else [256 * OctetValue(tail[0]) + OctetValue(tail[1]), 256 * OctetValue(tail[2]) + OctetValue(tail[3])]
  }

  function ZeroGroups(n: nat): (r: seq<nat>)
    ensures |r| == n
  {
    if n == 0 then [] else [0] + ZeroGroups(n - 1)
  }

  /** The eight groups a spelling stands for: `::` is as many zero groups as are missing. */
  function Value(sp: Spelling): (r: seq<nat>)
    requires sp.Valid()
    ensures |r| == 8
  {
    assert forall g :: g in sp.left || g in sp.right ==> g in sp.left + sp.right;
    Values(sp.left) + ZeroGroups(8 - sp.Width()) + Values(sp.right) + TailValues(sp.tail)
  }

  function Parts(groups: seq<string>, tail: seq<string>): seq<string> {
    groups + if |tail| == 0 then [] else [Join(tail, '.')]
  }

  /** Parts before and after a possible `::`. */
  function Assembled(left: seq<string>, right: seq<string>, compressed: bool): string {
    Join(left, ':') + if compressed then "::" + Join(right, ':') else ""
  }

  function Text(sp: Spelling): string {
    if sp.compressed then Assembled(sp.left, Parts(sp.right, sp.tail), true)
    else Assembled(Parts(sp.left, sp.tail), [], false)
  }

  function Print(sp: Spelling): string {
    Text(sp) + match sp.zone case None => "" case Some(zone) => "%" + zone
  }

  // ----- splitting what was joined -----

  predicate Without(text: string, c: char) {
    forall i :: 0 <= i < |text| ==> text[i] != c
  }

  predicate Clean(parts: seq<string>, c: char) {
    forall i :: 0 <= i < |parts| ==> parts[i] != "" && Without(parts[i], c)
  }

  lemma {:induction false} SplitAfter(head: string, c: char, tail: string)
    requires Without(head, c)
    ensures Split(head + [c] + tail, c) == [head] + Split(tail, c)
    ensures Split(head, c) == [head]
  {
    if head != "" {
      assert (head + [c] + tail)[1..] == head[1..] + [c] + tail;
      SplitAfter(head[1..], c, tail);
      assert [head[0]] + head[1..] == head;
      assert ([head[1..]] + Split(tail, c))[0] == head[1..] && ([head[1..]] + Split(tail, c))[1..] == Split(tail, c);
      assert [head[1..]][0] == head[1..] && [head[1..]][1..] == [];
    } else {
      assert head + [c] + tail == [c] + tail;
    }
  }

  /** Joining pieces without the separator and splitting again gives the pieces. */
  lemma {:induction false} SplitJoin(parts: seq<string>, c: char)
    requires |parts| > 0 && Clean(parts, c)
    ensures Split(Join(parts, c), c) == parts
  {
    assert Without(parts[0], c);
    if |parts| == 1 {
      SplitAfter(parts[0], c, "");
    } else {
      SplitAfter(parts[0], c, Join(parts[1..], c));
      SplitJoin(parts[1..], c);
    }
  }

  lemma PiecesOfJoin(parts: seq<string>)
    requires Clean(parts, ':')
    ensures Pieces(Join(parts, ':')) == parts
  {
    if |parts| > 0 {
      assert parts[0] != "";
      SplitJoin(parts, ':');
    }
  }

  predicate NoDouble(text: string) {
    forall i :: 0 <= i < |text| - 1 ==> !(text[i] == ':' && text[i + 1] == ':')
  }

  predicate NoColonAtEnds(text: string) {
    |text| > 0 ==> text[0] != ':' && text[|text| - 1] != ':'
  }

  lemma {:induction false} SplitDoubleWhole(text: string)
    requires NoDouble(text)
    ensures SplitDouble(text) == [text]
  {
    if |text| >= 2 {
      SplitDoubleWhole(text[1..]);
      assert [text[1..]][0] == text[1..] && [text[1..]][1..] == [];
      assert [text[0]] + text[1..] == text;
    }
  }

  lemma {:induction false} SplitDoubleAt(head: string, tail: string)
    requires NoDouble(head) && (|head| > 0 ==> head[|head| - 1] != ':')
    ensures SplitDouble(head + "::" + tail) == [head] + SplitDouble(tail)
  {
    var text := head + "::" + tail;
    if head == "" {
      assert text == "::" + tail && text[2..] == tail;
    } else {
      assert text[1..] == head[1..] + "::" + tail;
      assert !(text[0] == ':' && text[1] == ':');
      SplitDoubleAt(head[1..], tail);
      var rest := [head[1..]] + SplitDouble(tail);
      assert rest[0] == head[1..] && rest[1..] == SplitDouble(tail);
      assert [head[0]] + head[1..] == head;
    }
  }

  lemma {:induction false} JoinHasNoDouble(parts: seq<string>)
    requires Clean(parts, ':')
    ensures NoDouble(Join(parts, ':')) && NoColonAtEnds(Join(parts, ':'))
    ensures |parts| > 0 ==> Join(parts, ':') != ""
  {
    if |parts| > 0 {
      assert parts[0] != "" && Without(parts[0], ':');
      if |parts| > 1 {
        JoinHasNoDouble(parts[1..]);
        var rest := Join(parts[1..], ':');
        var text := Join(parts, ':');
        assert text == parts[0] + ":" + rest;
        forall i | 0 <= i < |text| - 1
          ensures !(text[i] == ':' && text[i + 1] == ':')
        {
          if i > |parts[0]| {
            assert text[i] == rest[i - |parts[0]| - 1] && text[i + 1] == rest[i - |parts[0]|];
          }
        }
      }
    }
  }

  /** The two halves, and their pieces, of an assembled text. */
  lemma HalvesOf(left: seq<string>, right: seq<string>, compressed: bool)
    requires Clean(left, ':') && Clean(right, ':') && (!compressed ==> right == [])
    ensures var halves := SplitDouble(Assembled(left, right, compressed));
            && |halves| == (if compressed then 2 else 1)
            && Pieces(halves[0]) == left && (compressed ==> Pieces(halves[1]) == right)
  {
    JoinHasNoDouble(left);
    JoinHasNoDouble(right);
    PiecesOfJoin(left);
    PiecesOfJoin(right);
    if compressed {
      assert Assembled(left, right, compressed) == Join(left, ':') + "::" + Join(right, ':');
      SplitDoubleAt(Join(left, ':'), Join(right, ':'));
      SplitDoubleWhole(Join(right, ':'));
    } else {
      assert Assembled(left, right, compressed) == Join(left, ':');
      SplitDoubleWhole(Join(left, ':'));
    }
  }

  // ----- case, numbers and the dotted tail -----

  predicate Lowered(g: string) {
    1 <= |g| && forall i :: 0 <= i < |g| ==> HexDigit(g[i]).Some?
  }

  lemma {:induction false} ParseHexLowered(g: string)
    requires Lowered(g)
    ensures ParseHex(g).Some? && (|g| <= 4 ==> ParseHex(g).value <= 0xffff)
    ensures |g| <= 1 ==> ParseHex(g).value < 16
    ensures |g| <= 2 ==> ParseHex(g).value < 256
    ensures |g| <= 3 ==> ParseHex(g).value < 4096
  {
    assert HexDigit(g[|g| - 1]).Some?;
    if |g| > 1 {
      ParseHexLowered(g[..|g| - 1]);
    }
  }

  /** Writing a number in hexadecimal and reading it back gives the number. */
  lemma {:induction false} HexRoundTrip(n: nat)
    ensures Lowered(Hex(n)) && ParseHex(Hex(n)) == Some(n)
  {
    if n >= 16 {
      HexRoundTrip(n / 16);
      var text := Hex(n / 16) + [HexChar(n % 16)];
      assert text[..|text| - 1] == Hex(n / 16);
      assert |text| > 1;
    }
  }

  function LowerAll(parts: seq<string>): (r: seq<string>)
    ensures |r| == |parts| && forall i :: 0 <= i < |parts| ==> r[i] == Lower(parts[i])
  {
    if |parts| == 0 then [] else [Lower(parts[0])] + LowerAll(parts[1..])
  }

  lemma LowerConcat(a: string, b: string)
    ensures Lower(a + b) == Lower(a) + Lower(b)
  {
  }

  lemma {:induction false} LowerJoin(parts: seq<string>, c: char)
    requires LowerChar(c) == c
    ensures Lower(Join(parts, c)) == Join(LowerAll(parts), c)
  {
    if |parts| > 1 {
      LowerJoin(parts[1..], c);
      LowerConcat(parts[0] + [c], Join(parts[1..], c));
      LowerConcat(parts[0], [c]);
      assert LowerAll(parts)[1..] == LowerAll(parts[1..]);
    } else if |parts| == 1 {
      assert LowerAll(parts) == [Lower(parts[0])];
    }
  }

  lemma {:induction false} ParseGroups(groups: seq<string>)
    requires forall g :: g in groups ==> GroupText(g)
    ensures ParseAll(LowerAll(groups), ParseHex) == Some(Values(groups))
    ensures forall v :: v in Values(groups) ==> v <= 0xffff
  {
    if |groups| > 0 {
      assert GroupText(groups[0]);
      ParseHexLowered(Lower(groups[0]));
      assert LowerAll(groups)[1..] == LowerAll(groups[1..]);
      ParseGroups(groups[1..]);
    }
  }

  lemma {:induction false} ParseZeros(n: nat)
    ensures |Zeros(n)| == n && ParseAll(Zeros(n), ParseHex) == Some(ZeroGroups(n))
    ensures forall v :: v in ZeroGroups(n) ==> v == 0
  {
    if n > 0 {
      ParseZeros(n - 1);
      assert Zeros(n)[1..] == Zeros(n - 1);
    }
  }

  lemma {:induction false} ParseAllConcat(a: seq<string>, b: seq<string>, parse: string -> Option<nat>)
    requires ParseAll(a, parse).Some? && ParseAll(b, parse).Some?
    ensures ParseAll(a + b, parse) == Some(ParseAll(a, parse).value + ParseAll(b, parse).value)
  {
    if |a| == 0 {
      assert a + b == b;
      assert [] + ParseAll(b, parse).value == ParseAll(b, parse).value;
    } else {
      assert (a + b)[1..] == a[1..] + b && (a + b)[0] == a[0];
      ParseAllConcat(a[1..], b, parse);
      var x, ra, rb := parse(a[0]).value, ParseAll(a[1..], parse).value, ParseAll(b, parse).value;
      assert [x] + (ra + rb) == ([x] + ra) + rb;
    }
  }

  lemma {:induction false} ParseAllGives(parts: seq<string>, values: seq<nat>, parse: string -> Option<nat>)
    requires |parts| == |values| && forall i :: 0 <= i < |parts| ==> parse(parts[i]) == Some(values[i])
    ensures ParseAll(parts, parse) == Some(values)
  {
    if |parts| > 0 {
      ParseAllGives(parts[1..], values[1..], parse);
      assert [values[0]] + values[1..] == values;
    }
  }

  function OctetValues(tail: seq<string>): seq<nat>
    requires |tail| == 4
  {
    [OctetValue(tail[0]), OctetValue(tail[1]), OctetValue(tail[2]), OctetValue(tail[3])]
  }

  lemma ParseOctets(tail: seq<string>)
    requires |tail| == 4 && forall o :: o in tail ==> OctetText(o)
    ensures ParseAll(tail, ParseDecimal) == Some(OctetValues(tail))
    ensures forall i :: 0 <= i < 4 ==> OctetValues(tail)[i] <= 255
  {
    forall i | 0 <= i < 4
      ensures ParseDecimal(tail[i]) == Some(OctetValues(tail)[i]) && OctetValues(tail)[i] <= 255
    {
      assert OctetText(tail[i]);
    }
    ParseAllGives(tail, OctetValues(tail), ParseDecimal);
  }

  /** The two hexadecimal groups that replace a dotted tail. */
  function HexTail(tail: seq<string>): seq<string>
    requires |tail| == 0 || |tail| == 4
  {
    if |tail| == 0 then []
    else [Hex(256 * OctetValue(tail[0]) + OctetValue(tail[1])), Hex(256 * OctetValue(tail[2]) + OctetValue(tail[3]))]
  }

  lemma {:induction false} LastIndexAfter(head: string, c: char, tail: string)
    requires Without(tail, c)
    ensures LastIndex(head + [c] + tail, c) == Some(|head|)
    decreases |tail|
  {
    var text := head + [c] + tail;
    if |tail| > 0 {
      assert text[..|text| - 1] == head + [c] + tail[..|tail| - 1];
      LastIndexAfter(head, c, tail[..|tail| - 1]);
    }
  }

  lemma {:induction false} JoinChars(parts: seq<string>, c: char, ok: char -> bool)
    requires ok(c) && forall i, k :: 0 <= i < |parts| && 0 <= k < |parts[i]| ==> ok(parts[i][k])
    ensures forall i :: 0 <= i < |Join(parts, c)| ==> ok(Join(parts, c)[i])
  {
    if |parts| > 1 {
      JoinChars(parts[1..], c, ok);
    }
  }

  lemma DottedText(tail: seq<string>)
    requires |tail| == 4 && forall o :: o in tail ==> OctetText(o)
    ensures var dotted := Join(tail, '.');
            Without(dotted, ':') && '.' in dotted && Split(dotted, '.') == tail && Without(dotted, '%') && Lower(dotted) == dotted
  {
    forall i, k | 0 <= i < |tail| && 0 <= k < |tail[i]|
      ensures '0' <= tail[i][k] <= '9'
    {
      assert OctetText(tail[i]);
    }
    JoinChars(tail, '.', (c: char) => c == '.' || '0' <= c <= '9');
    forall i | 0 <= i < |tail|
      ensures tail[i] != "" && Without(tail[i], '.')
    {
      assert OctetText(tail[i]);
    }
    SplitJoin(tail, '.');
    var dotted := Join(tail, '.');
    assert dotted == tail[0] + "." + Join(tail[1..], '.');
    assert dotted[|tail[0]|] == '.';
    assert forall i :: 0 <= i < |dotted| ==> LowerChar(dotted[i]) == dotted[i];
  }

  lemma JoinTwo(a: string, b: string, c: char)
    ensures Join([a, b], c) == a + [c] + b
  {
    assert [a, b][1..] == [b];
  }

  lemma HexGroupsOf(tail: seq<string>)
    requires |tail| == 4 && forall o :: o in tail ==> OctetText(o)
    ensures HexGroups(ParseAll(tail, ParseDecimal)) == Some(Join(HexTail(tail), ':'))
  {
    ParseOctets(tail);
    var hex := HexTail(tail);
    JoinTwo(hex[0], hex[1], ':');
    hide Join, ParseAll, Hex, OctetValue;
    assert forall o :: o in OctetValues(tail) ==> o <= 255;
  }

  lemma Around(head: string, dotted: string)
    ensures var text := head + ":" + dotted;
            text[|head| + 1..] == dotted && text[..|head|] == head && ('.' in dotted ==> '.' in text)
  {
  }

  /** A dotted text after some colon is normalized to two groups. */
  lemma NormalizeDotted(head: string, tail: seq<string>)
    requires |tail| == 4 && forall o :: o in tail ==> OctetText(o)
    ensures Normalize(head + ":" + Join(tail, '.')) == Some(head + ":" + Join(HexTail(tail), ':'))
  {
    hide Join, Split, LastIndex, ParseAll, HexGroups, HexTail, Lower, Without;
    DottedText(tail);
    LastIndexAfter(head, ':', Join(tail, '.'));
    Around(head, Join(tail, '.'));
    HexGroupsOf(tail);
  }

  // ----- a whole address -----

  lemma {:induction false} BeforeFirstOf(head: string, rest: string, c: char)
    requires Without(head, c) && (rest == "" || rest[0] == c)
    ensures BeforeFirst(head + rest, c) == head
  {
    if head != "" {
      assert (head + rest)[1..] == head[1..] + rest;
      BeforeFirstOf(head[1..], rest, c);
    } else {
      assert head + rest == rest;
    }
  }

  lemma {:induction false} JoinConcat(a: seq<string>, b: seq<string>, c: char)
    requires |a| > 0 && |b| > 0
    ensures Join(a + b, c) == Join(a, c) + [c] + Join(b, c)
  {
    assert (a + b)[1..] == a[1..] + b;
    if |a| > 1 {
      JoinConcat(a[1..], b, c);
    } else {
      assert a[1..] + b == b;
    }
  }

  /** The parts of a spelling in lower case, its tail written as given or in hexadecimal. */
  function LowerParts(groups: seq<string>, tail: seq<string>): seq<string> {
    Parts(LowerAll(groups), tail)
  }

  lemma LoweredText(left: seq<string>, right: seq<string>, compressed: bool)
    ensures Lower(Assembled(left, right, compressed)) == Assembled(LowerAll(left), LowerAll(right), compressed)
  {
    LowerJoin(left, ':');
    LowerJoin(right, ':');
    LowerConcat(Join(left, ':'), "::" + Join(right, ':'));
    LowerConcat("::", Join(right, ':'));
    assert Lower("::") == "::";
    hide Join, LowerAll;
  }

  lemma LoweredParts(groups: seq<string>, tail: seq<string>)
    requires |tail| == 0 || (|tail| == 4 && forall o :: o in tail ==> OctetText(o))
    ensures LowerAll(Parts(groups, tail)) == LowerParts(groups, tail)
  {
    if |tail| == 4 {
      DottedText(tail);
      hide Join;
      assert LowerAll(Parts(groups, tail)) == LowerAll(groups) + [Lower(Join(tail, '.'))];
    } else {
      assert groups + [] == groups && LowerAll(groups) + [] == LowerAll(groups);
    }
  }

  lemma PartsChars(groups: seq<string>, tail: seq<string>)
    requires forall g :: g in groups ==> GroupText(g)
    requires |tail| == 0 || (|tail| == 4 && forall o :: o in tail ==> OctetText(o))
    ensures Without(Join(Parts(groups, tail), ':'), '%')
  {
    var parts := Parts(groups, tail);
    forall i, k | 0 <= i < |parts| && 0 <= k < |parts[i]|
      ensures parts[i][k] != '%'
    {
      if i < |groups| {
        assert GroupText(groups[i]);
        assert HexDigitAnyCase(groups[i][k]);
      } else {
        DottedText(tail);
      }
    }
    JoinChars(parts, ':', (c: char) => c != '%');
  }

  /** Before its zone, an address is what its spelling assembles. */
  lemma ZoneIsCut(sp: Spelling)
    requires sp.Valid()
    ensures BeforeFirst(Print(sp), '%') == Text(sp)
  {
    assert forall g :: g in sp.left || g in sp.right ==> g in sp.left + sp.right;
    PartsChars(sp.left, sp.tail);
    PartsChars(sp.right, sp.tail);
    PartsChars(sp.left, []);
    assert Parts(sp.left, []) == sp.left;
    hide Join, Parts, Spelling.Valid;
    BeforeFirstOf(Text(sp), match sp.zone case None => "" case Some(zone) => "%" + zone, '%');
  }

  function LowText(sp: Spelling): string {
    if sp.compressed then Assembled(LowerAll(sp.left), LowerParts(sp.right, sp.tail), true)
    else Assembled(LowerParts(sp.left, sp.tail), [], false)
  }

  lemma TextIsLowered(sp: Spelling)
    requires sp.Valid()
    ensures Lower(Text(sp)) == LowText(sp)
  {
    LoweredParts(sp.left, sp.tail);
    LoweredParts(sp.right, sp.tail);
    LoweredText(sp.left, Parts(sp.right, sp.tail), true);
    LoweredText(Parts(sp.left, sp.tail), [], false);
    hide Assembled, Parts, LowerParts, Spelling.Valid;
  }

  function HexText(sp: Spelling): string
    requires sp.Valid()
  {
    if sp.compressed then Assembled(LowerAll(sp.left), LowerAll(sp.right) + HexTail(sp.tail), true)
    else Assembled(LowerAll(sp.left) + HexTail(sp.tail), [], false)
  }

  lemma LowerGroup(g: string)
    requires GroupText(g)
    ensures Lowered(Lower(g)) && |Lower(g)| <= 4
  {
    forall i | 0 <= i < |g|
      ensures HexDigit(Lower(g)[i]).Some?
    {
      assert HexDigitAnyCase(g[i]);
    }
  }

  lemma LoweredIsClean(g: string)
    requires Lowered(g)
    ensures g != "" && Without(g, ':') && Without(g, '.')
  {
    forall i | 0 <= i < |g|
      ensures g[i] != ':' && g[i] != '.'
    {
      assert HexDigit(g[i]).Some?;
    }
  }

  predicate AllLowered(parts: seq<string>) {
    forall i :: 0 <= i < |parts| ==> Lowered(parts[i])
  }

  lemma GroupsLowered(groups: seq<string>)
    requires forall g :: g in groups ==> GroupText(g)
    ensures AllLowered(LowerAll(groups))
  {
    forall i | 0 <= i < |groups|
      ensures Lowered(LowerAll(groups)[i])
    {
      LowerGroup(groups[i]);
    }
  }

  lemma HexTailLowered(tail: seq<string>)
    requires |tail| == 0 || |tail| == 4
    ensures AllLowered(HexTail(tail))
  {
    if |tail| == 4 {
      HexRoundTrip(256 * OctetValue(tail[0]) + OctetValue(tail[1]));
      HexRoundTrip(256 * OctetValue(tail[2]) + OctetValue(tail[3]));
    }
  }

  lemma LoweredAreClean(parts: seq<string>)
    requires AllLowered(parts)
    ensures Clean(parts, ':') && Without(Join(parts, ':'), '.')
  {
    forall i | 0 <= i < |parts|
      ensures parts[i] != "" && Without(parts[i], ':') && Without(parts[i], '.')
    {
      LoweredIsClean(parts[i]);
    }
    JoinChars(parts, ':', (c: char) => c != '.');
  }

  /** Without a tail there is nothing to normalize. */
  lemma PlainNormalizes(left: seq<string>, right: seq<string>, compressed: bool)
    requires AllLowered(left) && AllLowered(right)
    ensures Normalize(Assembled(left, right, compressed)) == Some(Assembled(left, right, compressed))
  {
    LoweredAreClean(left);
    LoweredAreClean(right);
    hide Join, LastIndex, HexGroups, ParseAll, Split;
    assert Without(Assembled(left, right, compressed), '.');
  }

  lemma TextNormalizes(sp: Spelling)
    requires sp.Valid()
    ensures Normalize(LowText(sp)) == Some(HexText(sp))
  {
    assert forall g :: g in sp.left || g in sp.right ==> g in sp.left + sp.right;
    GroupsLowered(sp.left);
    GroupsLowered(sp.right);
    var l, r, tail := LowerAll(sp.left), LowerAll(sp.right), sp.tail;
    hide Normalize, Join, LowerAll;
    if |tail| == 0 {
      assert l + [] == l && r + [] == r;
      if sp.compressed {
        PlainNormalizes(l, r, true);
      } else {
        AllLoweredNothing();
        PlainNormalizes(l, [], false);
      }
    } else {
      TailNormalizes(sp, l, r);
    }
  }

  lemma AllLoweredNothing()
    ensures AllLowered([])
  {
  }

  lemma JoinOne(part: string, c: char)
    ensures Join([part], c) == part
  {
  }

  /** The same tail, joined to the parts before it either way, keeps what is in front of it. */
  lemma TailJoins(parts: seq<string>, dotted: string, hex: seq<string>)
    requires |parts| > 0 && |hex| > 0
    ensures Join(parts + [dotted], ':') == Join(parts, ':') + ":" + dotted
    ensures Join(parts + hex, ':') == Join(parts, ':') + ":" + Join(hex, ':')
  {
    JoinOne(dotted, ':');
    JoinConcat(parts, [dotted], ':');
    JoinConcat(parts, hex, ':');
  }

  /** Either assembly of a compressed text: some text, a colon, and the tail. */
  lemma CompressedTail(l: string, r: string, rest: string)
    ensures l + ("::" + rest) == (l + ":") + ":" + rest
    ensures l + ("::" + (r + ":" + rest)) == (l + "::" + r) + ":" + rest
  {
    assert "::" + rest == ":" + (":" + rest);
  }

  lemma PlainTailNormalizes(l: seq<string>, tail: seq<string>)
    requires |l| > 0 && |tail| == 4 && forall o :: o in tail ==> OctetText(o)
    ensures Normalize(Join(l + [Join(tail, '.')], ':')) == Some(Join(l + HexTail(tail), ':'))
  {
    hide Normalize, Join, HexTail;
    assert |HexTail(tail)| == 2 by {
      TwoGroups(tail);
    }
    TailJoins(l, Join(tail, '.'), HexTail(tail));
    NormalizeDotted(Join(l, ':'), tail);
  }

  lemma TwoGroups(tail: seq<string>)
    requires |tail| == 4
    ensures |HexTail(tail)| == 2
  {
  }

  lemma CompressedTailNormalizes(l: seq<string>, r: seq<string>, tail: seq<string>)
    requires |tail| == 4 && forall o :: o in tail ==> OctetText(o)
    ensures Normalize(Join(l, ':') + ("::" + Join(r + [Join(tail, '.')], ':'))) == Some(Join(l, ':') + ("::" + Join(r + HexTail(tail), ':')))
  {
    var dotted, hex, before, after := Join(tail, '.'), HexTail(tail), Join(l, ':'), Join(r, ':');
    TwoGroups(tail);
    JoinOne(dotted, ':');
    hide Normalize, Join, HexTail;
    CompressedTail(before, after, dotted);
    CompressedTail(before, after, Join(hex, ':'));
    if |r| == 0 {
      assert r + [dotted] == [dotted] && r + hex == hex;
      NormalizeDotted(before + ":", tail);
    } else {
      TailJoins(r, dotted, hex);
      NormalizeDotted(before + "::" + after, tail);
    }
  }

  lemma TailNormalizes(sp: Spelling, l: seq<string>, r: seq<string>)
    requires sp.Valid() && |sp.tail| == 4 && l == LowerAll(sp.left) && r == LowerAll(sp.right)
    ensures Normalize(LowText(sp)) == Some(HexText(sp))
  {
    hide Normalize, Join, HexTail, LowerAll;
    if sp.compressed {
      CompressedTailNormalizes(l, r, sp.tail);
    } else {
      PlainTailNormalizes(l, sp.tail);
      assert Join(l + HexTail(sp.tail), ':') + "" == Join(l + HexTail(sp.tail), ':');
      assert Join(l + [Join(sp.tail, '.')], ':') + "" == Join(l + [Join(sp.tail, '.')], ':');
    }
  }

  lemma ParseFour(l: seq<string>, z: seq<string>, r: seq<string>, h: seq<string>, a: seq<nat>, b: seq<nat>, c: seq<nat>, d: seq<nat>)
    requires ParseAll(l, ParseHex) == Some(a) && ParseAll(z, ParseHex) == Some(b)
    requires ParseAll(r, ParseHex) == Some(c) && ParseAll(h, ParseHex) == Some(d)
    ensures ParseAll(l + (z + (r + h)), ParseHex) == Some(a + b + c + d)
  {
    hide ParseAll;
    ParseAllConcat(r, h, ParseHex);
    ParseAllConcat(z, r + h, ParseHex);
    ParseAllConcat(l, z + (r + h), ParseHex);
    assert a + (b + (c + d)) == a + b + c + d;
  }

  /** What the text is read into: the values of its groups, with zeros where `::` stands. */
  lemma GroupsParse(sp: Spelling)
    requires sp.Valid()
    ensures |sp.tail| == 0 || |sp.tail| == 4
    ensures var missing := 8 - sp.Width();
            ParseAll(LowerAll(sp.left) + (Zeros(missing) + (LowerAll(sp.right) + HexTail(sp.tail))), ParseHex) == Some(Value(sp))
    ensures forall v :: v in Value(sp) ==> v <= 0xffff
  {
    assert forall g :: g in sp.left || g in sp.right ==> g in sp.left + sp.right;
    hide LowerAll, Zeros, HexTail, ParseAll, Values, ZeroGroups, TailValues, OctetText, GroupText;
    ParseGroups(sp.left);
    ParseGroups(sp.right);
    ParseZeros(8 - sp.Width());
    ParseTail(sp.tail);
    ParseFour(LowerAll(sp.left), Zeros(8 - sp.Width()), LowerAll(sp.right), HexTail(sp.tail),
              Values(sp.left), ZeroGroups(8 - sp.Width()), Values(sp.right), TailValues(sp.tail));
  }

  lemma HexParses(n: nat)
    ensures ParseHex(Hex(n)) == Some(n)
  {
    HexRoundTrip(n);
  }

  lemma TwoHexParse(x: nat, y: nat)
    ensures ParseAll([Hex(x), Hex(y)], ParseHex) == Some([x, y])
  {
    hide Hex, ParseHex;
    HexParses(x);
    HexParses(y);
    ParseAllGives([Hex(x), Hex(y)], [x, y], ParseHex);
  }

  lemma ParseTail(tail: seq<string>)
    requires |tail| == 0 || (|tail| == 4 && forall o :: o in tail ==> OctetText(o))
    ensures ParseAll(HexTail(tail), ParseHex) == Some(TailValues(tail))
    ensures forall v :: v in TailValues(tail) ==> v <= 0xffff
  {
    if |tail| == 4 {
      ParseOctets(tail);
      var v := OctetValues(tail);
      assert v[0] <= 255 && v[1] <= 255 && v[2] <= 255 && v[3] <= 255;
      hide Hex, ParseHex, OctetValue, OctetText, ParseAll;
      TwoHexParse(TailValues(tail)[0], TailValues(tail)[1]);
    }
  }

  lemma {:induction false} BytesOfLength(groups: seq<nat>)
    ensures |BytesOf(groups)| == 2 * |groups|
  {
    if |groups| > 0 {
      BytesOfLength(groups[1..]);
    }
  }

  lemma HexPartsClean(sp: Spelling)
    requires sp.Valid()
    ensures Clean(LowerAll(sp.left), ':') && Clean(LowerAll(sp.right) + HexTail(sp.tail), ':')
    ensures Clean(LowerAll(sp.left) + HexTail(sp.tail), ':')
    ensures |LowerAll(sp.left)| + |LowerAll(sp.right) + HexTail(sp.tail)| == sp.Width()
  {
    assert forall g :: g in sp.left || g in sp.right ==> g in sp.left + sp.right;
    GroupsLowered(sp.left);
    GroupsLowered(sp.right);
    HexTailLowered(sp.tail);
    LoweredAreClean(LowerAll(sp.left));
    LoweredAreClean(LowerAll(sp.right));
    LoweredAreClean(HexTail(sp.tail));
    hide Hex, LowerAll, Lowered;
  }

  /**
   Every spelling of an address is read as its sixteen bytes: any placement of `::`, any case, groups with
   or without leading zeros, a dotted or a hexadecimal tail, with or without a zone.
   */
  lemma EverySpellingReads(sp: Spelling)
    requires sp.Valid()
    ensures Ipv6Bytes(Print(sp)) == Some(BytesOf(Value(sp))) && |BytesOf(Value(sp))| == 16
  {
    hide Spelling.Valid, Print, Text, Normalize, LowText, HexTail, LowerAll, ParseAll, BytesOf, Clean, Value, Zeros, SplitDouble, Pieces, Assembled;
    BytesOfLength(Value(sp));
    ZoneIsCut(sp);
    TextIsLowered(sp);
    TextNormalizes(sp);
    HexPartsClean(sp);
    GroupsParse(sp);
    assert |sp.tail| == 0 || |sp.tail| == 4;
    var l, rh := LowerAll(sp.left), LowerAll(sp.right) + HexTail(sp.tail);
    var missing := 8 - sp.Width();
    if sp.compressed {
      HalvesOf(l, rh, true);
      WidthOf(sp);
      assert l + Zeros(missing) + rh == l + (Zeros(missing) + rh);
    } else {
      WidthOf(sp);
      var lh := l + HexTail(sp.tail);
      CleanNothing();
      HalvesOf(lh, [], false);
      assert lh + Zeros(0) + [] == l + (Zeros(missing) + rh) by {
        NoZeros();
        NothingLowered(sp.right);
      }
    }
  }

  lemma WidthOf(sp: Spelling)
    requires sp.Valid()
    ensures if sp.compressed then sp.Width() <= 7 else sp.Width() == 8 && sp.right == []
    ensures |LowerAll(sp.left) + HexTail(sp.tail)| == |sp.left| + |sp.tail| / 2
  {
  }

  lemma CleanNothing()
    ensures Clean([], ':')
  {
  }

  lemma NoZeros()
    ensures Zeros(0) == []
  {
  }

  lemma NothingLowered(groups: seq<string>)
    ensures groups == [] ==> LowerAll(groups) == []
  {
  }

  /** So two spellings of one address are never told apart. */
  lemma SpellingDoesNotMatter(sp: Spelling, other: Spelling)
    requires sp.Valid() && other.Valid() && Value(sp) == Value(other)
    ensures Ipv6Bytes(Print(sp)) == Ipv6Bytes(Print(other))
  {
    EverySpellingReads(sp);
    EverySpellingReads(other);
  }

  // ----- the two filters -----

  /** `privateAddress` on the octets of an IPv4 address. */
  predicate PrivateV4(a: nat, b: nat, c: nat) {
    || a == 0 || a == 10 || a == 127 || a >= 224
    || (a == 100 && 64 <= b <= 127) || (a == 169 && b == 254)
    || (a == 172 && 16 <= b <= 31) || (a == 192 && b == 168)
    || (a == 192 && b == 0) || (a == 192 && b == 88 && c == 99)
    || (a == 198 && (b == 18 || b == 19 || (b == 51 && c == 100)))
    || (a == 203 && b == 0 && c == 113)
  }

  /** The broker's `is_non_public_ip` on an IPv4 address. */
  predicate NonPublicV4(a: nat, b: nat, c: nat) {
    || a == 0 || a == 10 || (a == 100 && 64 <= b <= 127) || a == 127
    || (a == 169 && b == 254) || (a == 172 && 16 <= b <= 31)
    || (a == 192 && b == 0 && c == 0) || (a == 192 && b == 0 && c == 2) || (a == 192 && b == 168)
    || (a == 198 && (b == 18 || b == 19)) || (a == 198 && b == 51 && c == 100)
    || (a == 203 && b == 0 && c == 113) || a >= 224
  }

  predicate MappedV4(bytes: seq<nat>)
    requires |bytes| == 16
  {
    (forall i :: 0 <= i < 10 ==> bytes[i] == 0) && bytes[10] == 0xff && bytes[11] == 0xff
  }

  /** The top bits of an octet: masks of leading ones, as quotients. */
  function Top(b: nat, bits: nat): int
    requires bits <= 8
  {
    b / PowerOfTwo(8 - bits)
  }

  function PowerOfTwo(n: nat): (p: int)
    ensures p > 0
  {
    if n == 0 then 1 else 2 * PowerOfTwo(n - 1)
  }

  lemma Powers()
    ensures PowerOfTwo(1) == 2 && PowerOfTwo(4) == 16 && PowerOfTwo(5) == 32
  {
    assert PowerOfTwo(2) == 4 && PowerOfTwo(3) == 8;
  }

  /** The masks of the source pick the same octets as the quotients here. */
  lemma MasksAreQuotients(b: bv8)
    ensures (b & 0xe0) == 0x20 <==> Top(b as nat, 3) == 1
    ensures (b & 0xfe) == 0 <==> Top(b as nat, 7) == 0
    ensures (b & 0xf0) == 0 <==> Top(b as nat, 4) == 0
  {
    Powers();
    hide PowerOfTwo;
    assert (b & 0xe0) == 0x20 <==> 0x20 <= b <= 0x3f;
    assert (b & 0xfe) == 0 <==> b <= 1;
    assert (b & 0xf0) == 0 <==> b <= 0x0f;
  }

  /** The same for the segments the broker's filter masks. */
  lemma UniqueLocalMask(w: bv16)
    ensures (w & 0xfe00) == 0xfc00 <==> w as nat / 0x200 == 0xfc00 / 0x200
  {
    assert (w & 0xfe00) == 0xfc00 <==> 0xfc00 <= w <= 0xfdff;
  }

  lemma LinkLocalMask(w: bv16)
    ensures (w & 0xffc0) == 0xfe80 <==> w as nat / 0x40 == 0xfe80 / 0x40
  {
    assert (w & 0xffc0) == 0xfe80 <==> 0xfe80 <= w <= 0xfebf;
  }

  lemma SiteLocalMask(w: bv16)
    ensures (w & 0xffc0) == 0xfec0 <==> w as nat / 0x40 == 0xfec0 / 0x40
  {
    assert (w & 0xffc0) == 0xfec0 <==> 0xfec0 <= w <= 0xfeff;
  }

  /** What `privateAddress` refuses of the IPv6 addresses that map no IPv4 address. */
  predicate PrivateUnmapped(bytes: seq<nat>)
    requires |bytes| == 16
  {
    || Top(bytes[0], 3) != 1
    || (bytes[0] == 0x20 && bytes[1] == 0x01 && Top(bytes[2], 7) == 0)
    || (bytes[0] == 0x20 && bytes[1] == 0x01 && bytes[2] == 0x0d && bytes[3] == 0xb8)
    || (bytes[0] == 0x20 && bytes[1] == 0x02)
    || (bytes[0] == 0x3f && bytes[1] == 0xff && Top(bytes[2], 4) == 0)
  }

  /** An octet as `isIP` takes it: decimal, at most 255, no leading zero. */
  predicate PlainOctet(o: string) {
    OctetText(o) && (|o| > 1 ==> o[0] != '0')
  }

  predicate IsIPv4(text: string) {
    var parts := Split(text, '.');
    |parts| == 4 && forall p :: p in parts ==> PlainOctet(p)
  }

  /** `n.toString()`. */
  function Decimal(n: nat): (text: string)
    ensures text != ""
  {
    if n < 10 then [('0' as int + n) as char] else Decimal(n / 10) + [('0' as int + n % 10) as char]
  }

  function Dotted(octets: seq<nat>): string {
    Join(Decimals(octets), '.')
  }

  function Decimals(octets: seq<nat>): (r: seq<string>)
    ensures |r| == |octets| && forall i :: 0 <= i < |octets| ==> r[i] == Decimal(octets[i])
  {
    if |octets| == 0 then [] else [Decimal(octets[0])] + Decimals(octets[1..])
  }

  lemma {:induction false} DecimalRoundTrip(n: nat)
    ensures ParseDecimal(Decimal(n)) == Some(n)
    ensures forall i :: 0 <= i < |Decimal(n)| ==> '0' <= Decimal(n)[i] <= '9'
    ensures n > 0 ==> Decimal(n)[0] != '0'
    ensures (n < 10 ==> |Decimal(n)| == 1) && (n < 100 ==> |Decimal(n)| <= 2) && (n < 1000 ==> |Decimal(n)| <= 3)
  {
    if n >= 10 {
      DecimalRoundTrip(n / 10);
      var text := Decimal(n / 10) + [('0' as int + n % 10) as char];
      assert text[..|text| - 1] == Decimal(n / 10);
    }
  }

  /** Four octets, printed, are IPv4 text of those octets. */
  lemma DottedIsIPv4(octets: seq<nat>)
    requires |octets| == 4 && forall o :: o in octets ==> o < 256
    ensures IsIPv4(Dotted(octets)) && Split(Dotted(octets), '.') == Decimals(octets)
    ensures forall i :: 0 <= i < 4 ==> OctetValue(Decimals(octets)[i]) == octets[i]
  {
    var parts := Decimals(octets);
    forall i | 0 <= i < 4
      ensures PlainOctet(parts[i]) && Without(parts[i], '.') && OctetValue(parts[i]) == octets[i]
    {
      assert octets[i] in octets;
      DecimalRoundTrip(octets[i]);
    }
    SplitJoin(parts, '.');
  }

  lemma BytesRead(address: string)
    requires Ipv6Bytes(address).Some?
    ensures |Ipv6Bytes(address).value| == 16 && forall b :: b in Ipv6Bytes(address).value ==> b < 256
  {
    hide Normalize, SplitDouble, Pieces, ParseAll, BytesOf;
    var halves := SplitDouble(Normalize(Lower(BeforeFirst(address, '%'))).value);
    var left := Pieces(halves[0]);
    var right := if |halves| == 2 then Pieces(halves[1]) else [];
    var missing: nat := 8 - |left| - |right|;
    ZerosCount(missing);
    ParseAllCounts(left + Zeros(missing) + right, ParseHex);
    var groups := ParseAll(left + Zeros(missing) + right, ParseHex).value;
    BytesOfLength(groups);
    BytesAreOctets(groups);
  }

  lemma {:induction false} ZerosCount(n: nat)
    ensures |Zeros(n)| == n
  {
    if n > 0 {
      ZerosCount(n - 1);
    }
  }

  lemma {:induction false} ParseAllCounts(parts: seq<string>, parse: string -> Option<nat>)
    ensures ParseAll(parts, parse).Some? ==> |ParseAll(parts, parse).value| == |parts|
  {
    if |parts| > 0 {
      ParseAllCounts(parts[1..], parse);
    }
  }

  predicate PrivateIPv4Text(text: string) {
    var parts := Split(text, '.');
    |parts| == 4 && PrivateV4(OctetValue(parts[0]), OctetValue(parts[1]), OctetValue(parts[2]))
  }

  /** `privateAddress`, for text that `isIP` takes for an address: a mapped IPv4 address is printed and read again. */
  predicate PrivateAddress(address: string) {
    if IsIPv4(address) then PrivateIPv4Text(address)
    else
      match Ipv6Bytes(address)
      case None => false
      case Some(bytes) =>
        |bytes| == 16 && if MappedV4(bytes) then PrivateIPv4Text(Dotted(bytes[12..])) else PrivateUnmapped(bytes)
  }

  /** The printed address is IPv4 text, so reading it again is the source's recursive call. */
  lemma MappedIsAskedAgain(address: string)
    requires !IsIPv4(address) && Ipv6Bytes(address).Some?
    ensures |Ipv6Bytes(address).value| == 16
    ensures MappedV4(Ipv6Bytes(address).value) ==>
              (PrivateAddress(address) <==> PrivateAddress(Dotted(Ipv6Bytes(address).value[12..])))
  {
    hide Ipv6Bytes, IsIPv4, PrivateUnmapped, PrivateIPv4Text, Dotted;
    BytesRead(address);
    var bytes := Ipv6Bytes(address).value;
    if MappedV4(bytes) {
      assert forall o :: o in bytes[12..] ==> o in bytes;
      DottedIsIPv4(bytes[12..]);
    }
  }

  /** What that comes to on the sixteen bytes of an IPv6 address. */
  predicate PrivateV6(bytes: seq<nat>)
    requires |bytes| == 16
  {
    if MappedV4(bytes) then PrivateV4(bytes[12], bytes[13], bytes[14]) else PrivateUnmapped(bytes)
  }

  lemma DottedIsPrivate(octets: seq<nat>)
    requires |octets| == 4 && forall o :: o in octets ==> o < 256
    ensures PrivateIPv4Text(Dotted(octets)) <==> PrivateV4(octets[0], octets[1], octets[2])
  {
    hide Dotted, Split, PrivateV4;
    DottedIsIPv4(octets);
  }

  lemma ReadIsPrivate(address: string)
    requires !IsIPv4(address) && Ipv6Bytes(address).Some?
    ensures |Ipv6Bytes(address).value| == 16
    ensures PrivateAddress(address) <==> PrivateV6(Ipv6Bytes(address).value)
  {
    hide Ipv6Bytes, IsIPv4, PrivateUnmapped, PrivateV4, Dotted, PrivateIPv4Text;
    BytesRead(address);
    var bytes := Ipv6Bytes(address).value;
    if MappedV4(bytes) {
      assert forall o :: o in bytes[12..] ==> o in bytes;
      DottedIsPrivate(bytes[12..]);
    }
  }

  function Segment(bytes: seq<nat>, i: nat): int
    requires |bytes| == 16 && i < 8
  {
    256 * bytes[2 * i] + bytes[2 * i + 1]
  }

  /** The broker's `is_non_public_ip` on an IPv6 address, by its eight segments. */
  predicate NonPublicV6(bytes: seq<nat>)
    requires |bytes| == 16
  {
    if MappedV4(bytes) then NonPublicV4(bytes[12], bytes[13], bytes[14])
    else
      var first := Segment(bytes, 0);
      || ((forall i :: 0 <= i < 15 ==> bytes[i] == 0) && bytes[15] <= 1)
      || bytes[0] == 0xff
      || first / 0x200 == 0xfc00 / 0x200
      || first / 0x40 == 0xfe80 / 0x40
      || first / 0x40 == 0xfec0 / 0x40
      || (first == 0x2001 && Segment(bytes, 1) == 0x0db8)
  }

  /** The IPv4 half: whatever the broker refuses, the adapter refuses, from the text on. */
  lemma V4FilterIsStricter(address: string)
    requires IsIPv4(address)
    ensures var parts := Split(address, '.');
            NonPublicV4(OctetValue(parts[0]), OctetValue(parts[1]), OctetValue(parts[2])) ==> PrivateAddress(address)
  {
  }

  /** The adapter refuses every address the broker refuses. */
  lemma FilterIsStricter(bytes: seq<nat>)
    requires |bytes| == 16 && forall b :: b in bytes ==> b < 256
    ensures NonPublicV6(bytes) ==> PrivateV6(bytes)
  {
    assert bytes[0] in bytes && bytes[1] in bytes && bytes[2] in bytes && bytes[3] in bytes;
    if !MappedV4(bytes) && NonPublicV6(bytes) {
      assert PowerOfTwo(5) == 32 by {
        assert PowerOfTwo(2) == 4 && PowerOfTwo(3) == 8;
      }
      hide PowerOfTwo;
      assert bytes[0] == 0 || bytes[0] >= 0xfc || (bytes[0] == 0x20 && bytes[1] == 0x01 && bytes[2] == 0x0d && bytes[3] == 0xb8);
    }
  }

  /** And strictly more: it admits only global unicast space, and none of the special blocks inside it. */
  lemma FilterAdmitsOnlyGlobalUnicast(bytes: seq<nat>)
    requires |bytes| == 16 && !MappedV4(bytes) && !PrivateV6(bytes)
    ensures 0x20 <= bytes[0] <= 0x3f
  {
    assert PowerOfTwo(5) == 32 by {
      assert PowerOfTwo(2) == 4 && PowerOfTwo(3) == 8;
    }
  }

  lemma {:induction false} BytesAreOctets(groups: seq<nat>)
    requires forall v :: v in groups ==> v <= 0xffff
    ensures forall b :: b in BytesOf(groups) ==> b < 256
  {
    if |groups| > 0 {
      assert groups[0] in groups && forall v :: v in groups[1..] ==> v in groups;
      BytesAreOctets(groups[1..]);
    }
  }

  lemma {:induction false} DotlessParts(text: string, c: char)
    requires c != '.' && c in text
    ensures exists p :: p in Split(text, '.') && c in p
  {
    var rest := Split(text[1..], '.');
    if text[0] == c {
      assert Split(text, '.')[0] == [c] + rest[0];
      assert c in Split(text, '.')[0];
    } else {
      DotlessParts(text[1..], c);
      var p :| p in rest && c in p;
      var i :| 0 <= i < |rest| && rest[i] == p;
      if text[0] == '.' {
        assert Split(text, '.')[i + 1] == p;
      } else if i > 0 {
        assert Split(text, '.')[i] == p;
      } else {
        assert Split(text, '.')[0] == [text[0]] + p;
        assert c in Split(text, '.')[0];
      }
    }
  }

  /** Text with a colon is no IPv4 text. */
  lemma ColonIsNoIPv4(text: string)
    requires ':' in text
    ensures !IsIPv4(text)
  {
    DotlessParts(text, ':');
    hide Split, ParseDecimal;
  }

  lemma JoinedHasSeparator(parts: seq<string>, c: char)
    requires |parts| > 1
    ensures c in Join(parts, c)
  {
    assert Join(parts, c)[|parts[0]|] == c;
  }

  /** Every spelling has a colon. */
  lemma PrintHasColon(sp: Spelling)
    requires sp.Valid()
    ensures ':' in Print(sp)
  {
    if sp.compressed {
      assert Text(sp)[|Join(sp.left, ':')|] == ':';
    } else {
      JoinedHasSeparator(Parts(sp.left, sp.tail), ':');
      assert Text(sp) == Join(Parts(sp.left, sp.tail), ':') + "";
    }
    assert forall c :: c in Text(sp) ==> c in Print(sp);
  }

  /** Whatever the spelling, an IPv6 address the broker would refuse is refused by the adapter, from the text on. */
  lemma EverySpellingIsFiltered(sp: Spelling)
    requires sp.Valid()
    ensures |BytesOf(Value(sp))| == 16
    ensures PrivateAddress(Print(sp)) <==> PrivateV6(BytesOf(Value(sp)))
    ensures NonPublicV6(BytesOf(Value(sp))) ==> PrivateAddress(Print(sp))
  {
    hide Spelling.Valid, Print, Ipv6Bytes, Value, BytesOf, NonPublicV6, PrivateV6, LowerAll, ParseAll, HexTail, Zeros, PrivateAddress, IsIPv4;
    EverySpellingReads(sp);
    PrintHasColon(sp);
    ColonIsNoIPv4(Print(sp));
    ReadIsPrivate(Print(sp));
    BytesRead(Print(sp));
    FilterIsStricter(BytesOf(Value(sp)));
  }
}
