/**
 * The text a card's QR code carries: one `key: value` line per dictionary
 * entry, in insertion order, joined by newlines. The decoder here is the
 * reference the encoding is checked against; it is not part of the
 * application, whose scanner does not decode.
 */
module QrPayload {
  import opened Wrappers
  import opened Records

  const Separator: string := ": "

  /** `f"{key}: {value}"`: the key, then the separator, then the value, nothing else. */
  function EntryLine(key: string, value: string): (line: string)
    ensures |line| == |key| + |Separator| + |value|
    ensures line[..|key|] == key && line[|key|..|key| + |Separator|] == Separator
    ensures line[|key| + |Separator|..] == value
  {
    key + Separator + value
  }

  function EntryLines(items: seq<(string, string)>): (lines: seq<string>)
    ensures |lines| == |items|
    ensures forall i :: 0 <= i < |items| ==> lines[i] == EntryLine(items[i].0, items[i].1)
  {
    seq(|items|, i requires 0 <= i < |items| => EntryLine(items[i].0, items[i].1))
  }

  /** `"\n".join(lines)`: separators between lines, none after the last (see JoinLinesEnds). */
  function JoinLines(lines: seq<string>): string
  {
    if |lines| == 0 then ""
    else if |lines| == 1 then lines[0]
    else lines[0] + "\n" + JoinLines(lines[1..])
  }

  /**
   * The join begins with the first line and ends with the last, with no
   * separator before or after; no lines join to the empty string.
   */
  lemma {:induction false} JoinLinesEnds(lines: seq<string>)
    ensures |lines| == 0 ==> JoinLines(lines) == ""
    ensures |lines| >= 1 ==>
      var joined, first := JoinLines(lines), lines[0];
      |joined| >= |first| && joined[..|first|] == first
    ensures |lines| >= 1 ==>
      var joined, last := JoinLines(lines), lines[|lines| - 1];
      |joined| >= |last| && joined[|joined| - |last|..] == last
  {
    if |lines| >= 2 {
      var rest := JoinLines(lines[1..]);
      JoinLinesEnds(lines[1..]);
      var joined := JoinLines(lines);
      assert joined == lines[0] + "\n" + rest;
      var last := lines[|lines| - 1];
      assert last == lines[1..][|lines[1..]| - 1];
      assert rest[|rest| - |last|..] == last;
      assert joined[|joined| - |last|..] == rest[|rest| - |last|..];
      assert joined[..|lines[0]|] == lines[0];
    }
  }

  /** The payload string handed to the QR encoder: it opens with the first entry's line and closes with the last's. */
  function Payload(items: seq<(string, string)>): (payload: string)
    ensures |items| == 0 ==> payload == ""
    ensures |items| >= 1 ==>
      var first := EntryLine(items[0].0, items[0].1);
      |payload| >= |first| && payload[..|first|] == first
    ensures |items| >= 1 ==>
      var last := EntryLine(items[|items| - 1].0, items[|items| - 1].1);
      |payload| >= |last| && payload[|payload| - |last|..] == last
  {
    JoinLinesEnds(EntryLines(items));
    JoinLines(EntryLines(items))
  }

  /** The payload of an employee record's card: it opens with the identifier line and closes with the photo line. */
  function EmployeePayload(e: Employee): (payload: string)
    ensures var first := "Unique ID: " + e.uniqueId;
      |payload| >= |first| && payload[..|first|] == first
    ensures var last := "Photo: " + PhotoText(e.photo);
      |payload| >= |last| && payload[|payload| - |last|..] == last
  {
    assert "Unique ID" + Separator == "Unique ID: ";
    assert "Photo" + Separator == "Photo: ";
    assert EntryLine("Unique ID", e.uniqueId) == "Unique ID: " + e.uniqueId;
    assert EntryLine("Photo", PhotoText(e.photo)) == "Photo: " + PhotoText(e.photo);
    Payload(Items(e))
  }

  /** Index of the first occurrence of `c` in `s`. */
  function IndexOf(s: string, c: char): (r: Option<nat>)
    ensures r.None? <==> c !in s
    ensures r.Some? ==> r.value < |s| && s[r.value] == c && c !in s[..r.value]
  {
    if |s| == 0 then None
    else if s[0] == c then Some(0)
    else
      match IndexOf(s[1..], c)
      case None => None
      case Some(i) => assert s[..i + 1] == [s[0]] + s[1..][..i]; Some(i + 1)
  }

  /** `s.split("\n")`: always at least one piece, none containing a newline. */
  function SplitLines(s: string): (pieces: seq<string>)
    ensures |pieces| >= 1
    decreases |s|
  {
    match IndexOf(s, '\n')
    case None => [s]
    case Some(i) => [s[..i]] + SplitLines(s[i + 1..])
  }

  /** A line read as a key and a value: split at the first colon, which must be followed by a space. */
  function ParseLine(line: string): Option<(string, string)>
  {
    match IndexOf(line, ':')
    case None => None
    case Some(i) =>
      if i + 1 < |line| && line[i + 1] == ' '
      then Some((line[..i], line[i + 2..]))
      else None
  }

  function ParseLines(lines: seq<string>): Option<seq<(string, string)>>
  {
    if |lines| == 0 then Some([])
    else
      match (ParseLine(lines[0]), ParseLines(lines[1..]))
      case (Some(item), Some(rest)) => Some([item] + rest)
      case _ => None
  }

  /** Reads a payload back into its entries. */
  function DecodePayload(payload: string): Option<seq<(string, string)>>
  {
    ParseLines(SplitLines(payload))
  }

  predicate NoNewline(s: string) {
    '\n' !in s
  }

  /** Entries whose lines survive the round trip: keys without a colon, no newlines anywhere. */
  predicate Encodable(items: seq<(string, string)>) {
    forall i :: 0 <= i < |items| ==>
      ':' !in items[i].0 && NoNewline(items[i].0) && NoNewline(items[i].1)
  }

  /** A newline-free head is split off at the newline that follows it. */
  lemma SplitAfterHead(head: string, rest: string)
    requires NoNewline(head)
    ensures SplitLines(head + "\n" + rest) == [head] + SplitLines(rest)
  {
    var s := head + "\n" + rest;
    assert s[..|head|] == head;
    assert s[|head|] == '\n';
    assert IndexOf(s, '\n') == Some(|head|);
    assert s[|head| + 1..] == rest;
  }

  /** Splitting a join of newline-free lines gives the lines back. */
  lemma {:induction false} SplitJoinLines(lines: seq<string>)
    requires |lines| >= 1
    requires forall i :: 0 <= i < |lines| ==> NoNewline(lines[i])
    ensures SplitLines(JoinLines(lines)) == lines
  {
    if |lines| == 1 {
      assert IndexOf(lines[0], '\n') == None;
    } else {
      var rest := JoinLines(lines[1..]);
      assert JoinLines(lines) == lines[0] + "\n" + rest;
      SplitAfterHead(lines[0], rest);
      var tail := lines[1..];
      assert forall i :: 0 <= i < |tail| ==> NoNewline(tail[i]) by {
        forall i | 0 <= i < |tail| ensures NoNewline(tail[i]) {
          assert tail[i] == lines[i + 1];
        }
      }
      SplitJoinLines(tail);
      assert SplitLines(JoinLines(lines)) == [lines[0]] + SplitLines(rest);
      assert SplitLines(rest) == tail;
      assert lines == [lines[0]] + tail;
    }
  }

  /** A key without a colon is split off at exactly the separator the encoder wrote. */
  lemma ParseEntryLine(key: string, value: string)
    requires ':' !in key
    ensures ParseLine(EntryLine(key, value)) == Some((key, value))
  {
    var line := EntryLine(key, value);
    assert line[..|key|] == key;
    assert line[|key|] == ':' && line[|key| + 1] == ' ';
    assert IndexOf(line, ':') == Some(|key|);
    assert line[|key| + 2..] == value;
  }

  lemma {:induction false} ParseEntryLines(items: seq<(string, string)>)
    requires Encodable(items)
    ensures ParseLines(EntryLines(items)) == Some(items)
  {
    if |items| > 0 {
      var lines := EntryLines(items);
      ParseEntryLine(items[0].0, items[0].1);
      assert lines[1..] == EntryLines(items[1..]);
      ParseEntryLines(items[1..]);
      assert items == [items[0]] + items[1..];
    }
  }

  /** The payload splits back into exactly one line per entry. */
  lemma PayloadLines(items: seq<(string, string)>)
    requires |items| >= 1 && Encodable(items)
    ensures SplitLines(Payload(items)) == EntryLines(items)
  {
    var lines := EntryLines(items);
    forall i | 0 <= i < |lines| ensures NoNewline(lines[i]) {
      assert lines[i] == items[i].0 + Separator + items[i].1;
    }
    SplitJoinLines(lines);
  }

  /** Decoding the payload reproduces every entry, in order. */
  lemma PayloadRoundTrip(items: seq<(string, string)>)
    requires |items| >= 1 && Encodable(items)
    ensures DecodePayload(Payload(items)) == Some(items)
  {
    PayloadLines(items);
    ParseEntryLines(items);
  }

  /** Text fields free of newlines: what single-line inputs produce. */
  predicate SingleLineFields(e: Employee) {
    NoNewline(e.uniqueId) && NoNewline(e.name) && NoNewline(e.cnic) &&
    NoNewline(e.role) && NoNewline(e.city) && NoNewline(e.shift) &&
    NoNewline(PhotoText(e.photo))
  }

  /**
   * A card's QR text is eight lines, one per column in table order
   * (`Unique ID` first, `Photo` last), each `column: value`; decoding it
   * gives back the record's entries.
   */
  lemma EmployeePayloadLines(e: Employee)
    requires SingleLineFields(e)
    ensures SplitLines(EmployeePayload(e)) ==
      ["Unique ID: " + e.uniqueId, "Name: " + e.name, "CNIC: " + e.cnic,
       "Age: " + Decimal.Digits(e.age), "Role: " + e.role, "City: " + e.city,
       "Shift: " + e.shift, "Photo: " + PhotoText(e.photo)]
    ensures DecodePayload(EmployeePayload(e)) == Some(Items(e))
  {
    var items := Items(e);
    assert NoNewline(Decimal.Digits(e.age)) by {
      assert Decimal.AllDigits(Decimal.Digits(e.age));
    }
    assert Encodable(items);
    PayloadLines(items);
    EmployeeEntryLines(e);
    PayloadRoundTrip(items);
  }

  lemma EmployeeEntryLines(e: Employee)
    ensures EntryLines(Items(e)) ==
      ["Unique ID: " + e.uniqueId, "Name: " + e.name, "CNIC: " + e.cnic,
       "Age: " + Decimal.Digits(e.age), "Role: " + e.role, "City: " + e.city,
       "Shift: " + e.shift, "Photo: " + PhotoText(e.photo)]
  {
    var lines := EntryLines(Items(e));
    assert "Unique ID" + Separator == "Unique ID: ";
    assert lines[0] == "Unique ID" + Separator + e.uniqueId;
    assert "Name" + Separator == "Name: ";
    assert lines[1] == "Name" + Separator + e.name;
    assert "CNIC" + Separator == "CNIC: ";
    assert lines[2] == "CNIC" + Separator + e.cnic;
    assert "Age" + Separator == "Age: ";
    assert lines[3] == "Age" + Separator + Decimal.Digits(e.age);
    assert "Role" + Separator == "Role: ";
    assert lines[4] == "Role" + Separator + e.role;
    assert "City" + Separator == "City: ";
    assert lines[5] == "City" + Separator + e.city;
    assert "Shift" + Separator == "Shift: ";
    assert lines[6] == "Shift" + Separator + e.shift;
    assert "Photo" + Separator == "Photo: ";
    assert lines[7] == "Photo" + Separator + PhotoText(e.photo);
  }
}
