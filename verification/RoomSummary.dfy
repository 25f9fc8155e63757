/**
 * The one-line room summary stored in `room_type_name` ("6 Bed Mixed Dormitory x1, Queen Room x2")
 * and the parser the sync worker falls back to for bookings without a stored room list.
 */
module RoomSummary {
  import opened Wrappers

  datatype RoomType = RoomType(
    name: string, ezeeRoomType: Option<string>, ezeeRatePlan: Option<string>, ezeeRateType: Option<string>,
    pricePerNight: nat)

  datatype Item = Item(name: string, quantity: nat)

  datatype Parsed = Parsed(
    roomType: string, ratePlan: string, rateType: string, quantity: nat, pricePerNight: nat)

  // ---------------------------------------------------------------- characters

  /** JavaScript whitespace, as trimmed by `trim` and matched by `\s`. */
  predicate IsSpace(c: char)
  {
    || '\t' <= c <= '\r' || c == ' ' || c == '\U{00A0}' || c == '\U{1680}' || '\U{2000}' <= c <= '\U{200A}'
    || c == '\U{2028}' || c == '\U{2029}' || c == '\U{202F}' || c == '\U{205F}' || c == '\U{3000}'
    || c == '\U{FEFF}'
  }

  /** The characters that `.` does not match. */
  predicate IsLineBreak(c: char)
  {
    c == '\n' || c == '\r' || c == '\U{2028}' || c == '\U{2029}'
  }

  predicate IsDigit(c: char)
  {
    '0' <= c <= '9'
  }

  predicate AllDigits(s: string)
  {
    forall i | 0 <= i < |s| :: IsDigit(s[i])
  }

  function LowerChar(c: char): char
  {
    if 'A' <= c <= 'Z' then (c as int + 32) as char else c
  }

  /** `toLowerCase` on ASCII letters. */
  function Lower(s: string): (t: string)
    ensures |t| == |s|
    ensures forall i | 0 <= i < |s| :: t[i] == LowerChar(s[i])
  {
    seq(|s|, i requires 0 <= i < |s| => LowerChar(s[i]))
  }

  function TrimStart(s: string): string
  {
    if s != [] && IsSpace(s[0]) then TrimStart(s[1..]) else s
  }

  function TrimEnd(s: string): string
  {
    if s != [] && IsSpace(s[|s| - 1]) then TrimEnd(s[..|s| - 1]) else s
  }

  function Trim(s: string): string
  {
    TrimEnd(TrimStart(s))
  }

  ghost predicate NoEdgeSpace(s: string)
  {
    s != [] ==> !IsSpace(s[0]) && !IsSpace(s[|s| - 1])
  }

  // ---------------------------------------------------------------- numbers

  /** Decimal notation, as a number interpolated into a template string. */
  function Decimal(n: nat): string
  {
    if n < 10 then [('0' as int + n) as char] else Decimal(n / 10) + [('0' as int + n % 10) as char]
  }

  /** `parseInt(s, 10)` of a string of digits. */
  function ParseInt(s: string): nat
    requires AllDigits(s)
  {
    if s == [] then 0 else ParseInt(s[..|s| - 1]) * 10 + (s[|s| - 1] as int - '0' as int)
  }

  lemma {:induction false} DecimalRoundTrip(n: nat)
    ensures Decimal(n) != [] && AllDigits(Decimal(n))
    ensures ParseInt(Decimal(n)) == n
  {
    var s := Decimal(n);
    if n < 10 {
      assert ParseInt(s[..0]) == 0;
    } else {
      DecimalRoundTrip(n / 10);
      assert s[..|s| - 1] == Decimal(n / 10);
    }
  }

  // ---------------------------------------------------------------- printer

  function PrintItem(item: Item): string
  {
    item.name + " x" + Decimal(item.quantity)
  }

  function Print(items: seq<Item>): string
  {
    if items == [] then ""
    else if |items| == 1 then PrintItem(items[0])
    else PrintItem(items[0]) + ", " + Print(items[1..])
  }

  // ---------------------------------------------------------------- parser

  /** `s.split(',')`. */
  function Split(s: string): (segments: seq<string>)
    ensures |segments| >= 1
  {
    if s == [] then [[]]
    else
      var rest := Split(s[1..]);
      if s[0] == ',' then [[]] + rest else [[s[0]] + rest[0]] + rest[1..]
  }

  /** The whole of `t` is matched by `\s+x(\d+)`; the result is where the digits start. */
  function MatchTail(t: string, from: nat): (digits: Option<nat>)
    requires from <= |t|
    requires forall i | 0 <= i < from :: IsSpace(t[i])
    ensures digits.Some? ==>
              && 2 <= digits.value < |t|
              && (forall i | 0 <= i < digits.value - 1 :: IsSpace(t[i]))
              && t[digits.value - 1] in "xX"
              && AllDigits(t[digits.value..])
    decreases |t| - from
  {
    if from < |t| && IsSpace(t[from]) then MatchTail(t, from + 1)
    else if from >= 1 && from + 1 < |t| && t[from] in "xX" && AllDigits(t[from + 1..]) then Some(from + 1)
    else None
  }

  /**
   * `/^(.+?)\s+x(\d+)$/i`: the shortest non-empty prefix without line breaks whose remainder is
   * matched by the tail. The result is the length of that prefix and the start of the digits.
   */
  function MatchSegment(s: string, length: nat): (split: Option<(nat, nat)>)
    requires 1 <= length
    ensures split.Some? ==> length <= split.value.0 < split.value.1 < |s| && AllDigits(s[split.value.1..])
    decreases |s| - length
  {
    if length >= |s| || IsLineBreak(s[length - 1]) then None
    else
      var tail := MatchTail(s[length..], 0);
      if tail.Some? then
        assert s[length..][tail.value..] == s[length + tail.value..];
        Some((length, length + tail.value))
      else MatchSegment(s, length + 1)
  }

  /** The first room type with the name, ignoring case. */
  function FindRoomType(table: seq<RoomType>, name: string): Option<RoomType>
  {
    if table == [] then None
    else if Lower(table[0].name) == Trim(Lower(name)) then Some(table[0])
    else FindRoomType(table[1..], name)
  }

  function Selection(rt: RoomType, quantity: nat): Parsed
  {
    var plan := rt.ezeeRatePlan.GetOr("");
    Parsed(rt.ezeeRoomType.GetOr(""), plan, rt.ezeeRateType.GetOr(plan), quantity, rt.pricePerNight)
  }

  /** What one segment contributes: nothing when it does not match or names no active room type. */
  function ParseSegment(segment: string, table: seq<RoomType>): seq<Parsed>
  {
    var s := Trim(segment);
    var split := MatchSegment(s, 1);
    if split.None? then []
    else
      var rt := FindRoomType(table, s[..split.value.0]);
      if rt.None? then [] else [Selection(rt.value, ParseInt(s[split.value.1..]))]
  }

  ghost function ParseSegments(segments: seq<string>, table: seq<RoomType>): seq<Parsed>
  {
    if segments == [] then [] else ParseSegment(segments[0], table) + ParseSegments(segments[1..], table)
  }

  /** Parsing one more segment. */
  lemma ParseSegmentsStep(parsed: seq<Parsed>, segments: seq<string>, table: seq<RoomType>, i: nat)
    requires i < |segments|
    ensures parsed + ParseSegments(segments[i..], table)
            == (parsed + ParseSegment(segments[i], table)) + ParseSegments(segments[i + 1..], table)
  {
    hide ParseSegment;
    assert segments[i..][1..] == segments[i + 1..];
  }

  lemma ParseSegmentsEnds(segments: seq<string>, table: seq<RoomType>)
    ensures segments[0..] == segments
    ensures ParseSegments(segments[|segments|..], table) == []
  {
  }

  /** The fallback branch of the worker's room parser. */
  method ParseRoomTypeName(summary: string, table: seq<RoomType>) returns (selections: seq<Parsed>)
    ensures selections == if summary == "" then [] else ParseSegments(Split(summary), table)
  {
    hide Split, ParseSegments, MatchSegment, MatchTail, Trim, FindRoomType, ParseInt, Selection;
    selections := [];
    if summary == "" {
      return;
    }
    var segments := Split(summary);
    ParseSegmentsEnds(segments, table);
    for i := 0 to |segments|
      invariant selections + ParseSegments(segments[i..], table) == ParseSegments(segments, table)
    {
      ParseSegmentsStep(selections, segments, table, i);
      var s := Trim(segments[i]);
      var split := MatchSegment(s, 1);
      if split.Some? {
        var rt := FindRoomType(table, s[..split.value.0]);
        if rt.Some? {
          selections := selections + [Selection(rt.value, ParseInt(s[split.value.1..]))];
        }
      }
    }
  }

  // ---------------------------------------------------------------- round trip

  /** Non-empty, without commas, line breaks and white space at the edges. */
  ghost predicate PrintableName(name: string)
  {
    && name != []
    && NoEdgeSpace(name)
    && forall i | 0 <= i < |name| :: name[i] != ',' && !IsLineBreak(name[i])
  }

  ghost predicate UniqueNames(table: seq<RoomType>)
  {
    forall i, j | 0 <= i < j < |table| :: Lower(table[i].name) != Lower(table[j].name)
  }

  lemma {:induction false} SplitAppend(s: string, t: string)
    requires ',' !in s
    ensures Split(s + t) == [s + Split(t)[0]] + Split(t)[1..]
  {
    if s == [] {
      assert s + t == t && s + Split(t)[0] == Split(t)[0];
    } else {
      SplitAppend(s[1..], t);
      assert (s + t)[1..] == s[1..] + t;
      assert s[0] != ',';
      assert [s[0]] + (s[1..] + Split(t)[0]) == s + Split(t)[0];
    }
  }

  lemma SplitComma(t: string)
    ensures Split(", " + t) == ["", " " + Split(t)[0]] + Split(t)[1..]
  {
    assert (", " + t)[1..] == " " + t;
    SplitAppend(" ", t);
  }

  lemma TrimIdentity(s: string)
    requires NoEdgeSpace(s)
    ensures Trim(s) == s && Trim(" " + s) == s
  {
    assert (" " + s)[1..] == s;
  }

  /** No split point inside the name can match: a blank would have to be a digit. */
  lemma NoEarlierMatch(name: string, digits: string, length: nat)
    requires PrintableName(name)
    requires 1 <= length < |name|
    ensures MatchTail((name + " x" + digits)[length..], 0).None?
  {
    var s := name + " x" + digits;
    var t := s[length..];
    var last := |name| - 1 - length;
    assert t[last] == name[|name| - 1] && t[last + 1] == ' ';
    if MatchTail(t, 0).Some? {
      assert false;
    }
  }

  lemma MatchAtName(name: string, digits: string)
    requires digits != [] && AllDigits(digits)
    ensures MatchTail((name + " x" + digits)[|name|..], 0) == Some(2)
  {
    var t := " x" + digits;
    assert (name + " x" + digits)[|name|..] == t;
    assert t[2..] == digits;
    assert MatchTail(t, 1) == Some(2);
  }

  lemma {:induction false} MatchPrinted(name: string, digits: string, length: nat)
    requires PrintableName(name)
    requires digits != [] && AllDigits(digits)
    requires 1 <= length <= |name|
    ensures MatchSegment(name + " x" + digits, length) == Some((|name|, |name| + 2))
    decreases |name| - length
  {
    var s := name + " x" + digits;
    assert s[length - 1] == name[length - 1];
    if length < |name| {
      NoEarlierMatch(name, digits, length);
      MatchPrinted(name, digits, length + 1);
    } else {
      MatchAtName(name, digits);
    }
  }

  lemma {:induction false} FindUnique(table: seq<RoomType>, k: nat, name: string)
    requires k < |table| && UniqueNames(table)
    requires Lower(table[k].name) == Trim(Lower(name))
    ensures FindRoomType(table, name) == Some(table[k])
  {
    if k > 0 {
      assert Lower(table[0].name) != Lower(table[k].name);
      FindUnique(table[1..], k - 1, name);
    }
  }

  lemma LowerKeepsEdges(name: string)
    requires NoEdgeSpace(name)
    ensures Trim(Lower(name)) == Lower(name)
  {
    TrimIdentity(Lower(name));
  }

  /** A printed item, with or without the blank after the comma, is read back. */
  lemma PrintedItem(rt: RoomType, quantity: nat, k: nat, table: seq<RoomType>)
    requires k < |table| && UniqueNames(table) && table[k] == rt && PrintableName(rt.name)
    ensures ParseSegment(PrintItem(Item(rt.name, quantity)), table) == [Selection(rt, quantity)]
    ensures ParseSegment(" " + PrintItem(Item(rt.name, quantity)), table) == [Selection(rt, quantity)]
  {
    var digits := Decimal(quantity);
    DecimalRoundTrip(quantity);
    var s := PrintItem(Item(rt.name, quantity));
    assert s[0] == rt.name[0] && s[|s| - 1] == digits[|digits| - 1];
    TrimIdentity(s);
    MatchPrinted(rt.name, digits, 1);
    assert s[..|rt.name|] == rt.name && s[|rt.name| + 2..] == digits;
    LowerKeepsEdges(rt.name);
    FindUnique(table, k, rt.name);
  }

  lemma PrintedHasNoComma(item: Item)
    requires PrintableName(item.name)
    ensures ',' !in PrintItem(item)
  {
    DecimalRoundTrip(item.quantity);
  }

  /** The row of the table that an item names. */
  ghost predicate Names(table: seq<RoomType>, rows: seq<nat>, items: seq<Item>)
  {
    && |rows| == |items|
    && forall i | 0 <= i < |items| ::
         rows[i] < |table| && table[rows[i]].name == items[i].name && PrintableName(items[i].name)
  }

  ghost function Selections(table: seq<RoomType>, rows: seq<nat>, items: seq<Item>): seq<Parsed>
    requires Names(table, rows, items)
  {
    seq(|items|, i requires 0 <= i < |items| => Selection(table[rows[i]], items[i].quantity))
  }

  /** The segments between the commas of a printed summary. */
  ghost function Segments(items: seq<Item>): seq<string>
  {
    seq(|items|, i requires 0 <= i < |items| => (if i == 0 then "" else " ") + PrintItem(items[i]))
  }

  lemma {:induction false} SplitPrinted(items: seq<Item>)
    requires items != []
    requires forall i | 0 <= i < |items| :: PrintableName(items[i].name)
    ensures Split(Print(items)) == Segments(items)
  {
    hide PrintItem, Decimal;
    var first := PrintItem(items[0]);
    PrintedHasNoComma(items[0]);
    assert first + "" == first && "" + first == first;
    if |items| == 1 {
      SplitAppend(first, "");
      assert Split("") == [""];
    } else {
      var rest := Print(items[1..]);
      SplitPrinted(items[1..]);
      SplitComma(rest);
      SplitAppend(first, ", " + rest);
      assert Print(items) == first + (", " + rest);
      assert Split(Print(items)) == [first, " " + Split(rest)[0]] + Split(rest)[1..];
      SegmentsTail(items);
    }
  }

  lemma SegmentsTail(items: seq<Item>)
    requires |items| >= 2
    ensures Segments(items)
            == [PrintItem(items[0]), " " + Segments(items[1..])[0]] + Segments(items[1..])[1..]
  {
    assert "" + PrintItem(items[0]) == PrintItem(items[0]) && "" + PrintItem(items[1]) == PrintItem(items[1]);
  }

  lemma SegmentParses(items: seq<Item>, rows: seq<nat>, table: seq<RoomType>, i: nat)
    requires UniqueNames(table) && Names(table, rows, items) && i < |items|
    ensures ParseSegment(Segments(items)[i], table) == [Selections(table, rows, items)[i]]
  {
    hide ParseSegment, PrintItem, UniqueNames, PrintableName, Selection;
    assert items[i] == Item(table[rows[i]].name, items[i].quantity);
    PrintedItem(table[rows[i]], items[i].quantity, rows[i], table);
    assert "" + PrintItem(items[i]) == PrintItem(items[i]);
  }

  lemma {:induction false} ParseEach(segments: seq<string>, table: seq<RoomType>, parsed: seq<Parsed>)
    requires |segments| == |parsed|
    requires forall i | 0 <= i < |segments| :: ParseSegment(segments[i], table) == [parsed[i]]
    ensures ParseSegments(segments, table) == parsed
  {
    if segments != [] {
      ParseEach(segments[1..], table, parsed[1..]);
      assert [parsed[0]] + parsed[1..] == parsed;
    }
  }

  /** What is read back of an item: its quantity, and its room type's price and eZee ids, absent ones as "". */
  ghost predicate IsParsedFor(parsed: Parsed, rt: RoomType, quantity: nat)
  {
    && parsed.quantity == quantity && parsed.pricePerNight == rt.pricePerNight
    && parsed.roomType == (if rt.ezeeRoomType.Some? then rt.ezeeRoomType.value else "")
    && parsed.ratePlan == (if rt.ezeeRatePlan.Some? then rt.ezeeRatePlan.value else "")
    && parsed.rateType == (if rt.ezeeRateType.Some? then rt.ezeeRateType.value else parsed.ratePlan)
  }

  /**
   * Reading a printed summary back gives the same room types and quantities in order, whenever
   * every printed name is printable and names a row of a table whose names differ ignoring case.
   */
  lemma PrintParseRoundTrip(items: seq<Item>, rows: seq<nat>, table: seq<RoomType>)
    requires UniqueNames(table) && Names(table, rows, items)
    ensures items == [] <==> Print(items) == ""
    ensures items != [] ==>
              var parsed := ParseSegments(Split(Print(items)), table);
              && |parsed| == |items|
              && forall i | 0 <= i < |items| :: IsParsedFor(parsed[i], table[rows[i]], items[i].quantity)
  {
    if items != [] {
      hide ParseSegment, ParseSegments, PrintItem, Split, Print;
      var parsed := Selections(table, rows, items);
      SplitPrinted(items);
      forall i | 0 <= i < |items|
        ensures ParseSegment(Segments(items)[i], table) == [parsed[i]]
      {
        SegmentParses(items, rows, table, i);
      }
      ParseEach(Segments(items), table, parsed);
    }
  }
}
