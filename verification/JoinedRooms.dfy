/** The joined-rooms column: a comma-terminated list of room IDs that the user flusher
    writes (internal/meta/chat/group/flusher.go) and a cache miss reads back
    (internal/meta/chat/group/repo.go). */
module JoinedRooms {
  import opened GoInt
  import opened Wrappers

  // ---------- strconv ----------

  function Digit(d: nat): (c: char)
    requires d < 10
    ensures IsDigit(c) && DigitValue(c) == d
  {
    '0' + d as char
  }

  predicate IsDigit(c: char) {
    '0' <= c <= '9'
  }

  function DigitValue(c: char): nat
    requires IsDigit(c)
  {
    (c - '0') as nat
  }

  function Decimal(n: nat): string {
    if n < 10 then [Digit(n)] else Decimal(n / 10) + [Digit(n % 10)]
  }

  function Abs(x: int): nat {
    if x < 0 then -x else x
  }

  /** `%d`, and strconv.FormatInt in base 10. */
  function FormatInt(x: int64): string {
    if x < 0 then "-" + Decimal(Abs(x)) else Decimal(Abs(x))
  }

  predicate AllDigits(s: string) {
    forall i | 0 <= i < |s| :: IsDigit(s[i])
  }

  function Magnitude(s: string): nat
    requires AllDigits(s)
  {
    if s == "" then 0 else Magnitude(s[..|s| - 1]) * 10 + DigitValue(s[|s| - 1])
  }

  /** strconv.ParseInt(s, 10, 64): an optional sign, at least one digit, nothing else, and
      a value in range. */
  function ParseInt(s: string): Option<int64> {
    var signed := s != "" && (s[0] == '-' || s[0] == '+');
    var digits := if signed then s[1..] else s;
    if digits == "" || !AllDigits(digits) then None
    else
      var magnitude: int := Magnitude(digits);
      var x := if signed && s[0] == '-' then -magnitude else magnitude;
      if -TWO_63 <= x < TWO_63 then Some(x) else None
  }

  lemma {:induction false} MagnitudeOfDecimal(n: nat)
    ensures Decimal(n) != "" && AllDigits(Decimal(n)) && Magnitude(Decimal(n)) == n
  {
    if n >= 10 {
      MagnitudeOfDecimal(n / 10);
      assert Decimal(n)[..|Decimal(n)| - 1] == Decimal(n / 10);
    } else {
      assert Decimal(n)[..0] == "";
    }
  }

  /** Every int64 survives formatting and parsing, the minimum value included, although its
      magnitude alone is out of range. */
  lemma ParseFormat(x: int64)
    ensures ParseInt(FormatInt(x)) == Some(x)
  {
    MagnitudeOfDecimal(Abs(x));
    var digits := Decimal(Abs(x));
    if x < 0 {
      assert FormatInt(x)[1..] == digits;
    } else {
      assert IsDigit(digits[0]);
    }
  }

  /** A formatted ID is never empty and never holds a comma. */
  lemma FormatIsField(x: int64)
    ensures FormatInt(x) != "" && ',' !in FormatInt(x)
  {
    MagnitudeOfDecimal(Abs(x));
    var digits := Decimal(Abs(x));
    assert forall i | 0 <= i < |digits| :: IsDigit(digits[i]);
  }

  // ---------- strings ----------

  /** strings.Split(s, ","). */
  function Split(s: string): (fields: seq<string>)
    ensures fields != []
  {
    if s == "" then [""]
    else
      var rest := Split(s[1..]);
      if s[0] == ',' then [""] + rest else [[s[0]] + rest[0]] + rest[1..]
  }

  /** strings.Join(fields, ","). */
  function Join(fields: seq<string>): string {
    if fields == [] then ""
    else if |fields| == 1 then fields[0]
    else fields[0] + "," + Join(fields[1..])
  }

  lemma {:induction false} SplitOffField(field: string, rest: string)
    requires ',' !in field
    ensures Split(field + "," + rest) == [field] + Split(rest)
  {
    var s := field + "," + rest;
    if field == "" {
      assert s[1..] == rest;
    } else {
      SplitOffField(field[1..], rest);
      assert s[1..] == field[1..] + "," + rest;
      assert field == [field[0]] + field[1..];
    }
  }

  // ---------- The column ----------

  function Formatted(rooms: seq<int64>): seq<string> {
    if rooms == [] then [] else Formatted(rooms[..|rooms| - 1]) + [FormatInt(rooms[|rooms| - 1])]
  }

  function Csv(rooms: seq<int64>): string {
    if rooms == [] then "" else Join(Formatted(rooms)) + ","
  }

  method WriteCsv(rooms: seq<int64>) returns (csv: string)
    ensures csv == Csv(rooms)
  {
    var strs: seq<string> := [];
    for k := 0 to |rooms|
      invariant strs == Formatted(rooms[..k]) && |strs| == k
    {
      assert rooms[..k + 1][..k] == rooms[..k];
      strs := strs + [FormatInt(rooms[k])];
    }
    assert rooms[..|rooms|] == rooms;
    csv := "";
    if |strs| > 0 {
      csv := Join(strs) + ",";
    }
  }

  function Both(a: Option<seq<int64>>, b: Option<seq<int64>>): Option<seq<int64>> {
    if a.None? || b.None? then None else Some(a.value + b.value)
  }

  /** An empty field holds no ID, any other must parse. */
  function Field(field: string): Option<seq<int64>> {
    if field == "" then Some([])
    else if ParseInt(field).None? then None
    else Some([ParseInt(field).value])
  }

  /** The IDs of all fields. */
  function Parsed(fields: seq<string>): Option<seq<int64>> {
    if fields == [] then Some([]) else Both(Parsed(fields[..|fields| - 1]), Field(fields[|fields| - 1]))
  }

  lemma BothLaws(a: Option<seq<int64>>, b: Option<seq<int64>>, c: Option<seq<int64>>)
    ensures Both(a, Both(b, c)) == Both(Both(a, b), c)
    ensures Both(a, Some([])) == a == Both(Some([]), a)
  {
    if a.Some? {
      assert a.value + [] == a.value == [] + a.value;
      if b.Some? && c.Some? {
        assert a.value + (b.value + c.value) == (a.value + b.value) + c.value;
      }
    }
  }

  lemma {:induction false} ParsedTogether(a: seq<string>, b: seq<string>)
    ensures Parsed(a + b) == Both(Parsed(a), Parsed(b))
  {
    hide Both, Field;
    if b == [] {
      assert a + b == a;
      BothLaws(Parsed(a), Some([]), Some([]));
    } else {
      var before := b[..|b| - 1];
      ParsedTogether(a, before);
      assert (a + b)[..|a + b| - 1] == a + before;
      BothLaws(Parsed(a), Parsed(before), Field(b[|b| - 1]));
    }
  }

  lemma NoFields(fields: seq<string>)
    ensures Parsed(fields[..0]) == Some([])
  {
  }

  lemma EmptyColumn()
    ensures Parsed(Split("")) == Some([])
  {
    assert [""][..0] == [];
    BothLaws(Some([]), None, None);
  }

  /** The fields up to and including number `k`. */
  lemma UpTo(fields: seq<string>, k: nat)
    requires k < |fields|
    ensures Parsed(fields[..k + 1]) == Both(Parsed(fields[..k]), Field(fields[k]))
    ensures Parsed(fields[..k + 1]).None? ==> Parsed(fields).None?
  {
    hide Field;
    assert fields[..k + 1][..k] == fields[..k];
    ParsedTogether(fields[..k + 1], fields[k + 1..]);
    assert fields[..k + 1] + fields[k + 1..] == fields;
  }

  method ReadCsv(csv: string) returns (rooms: Option<seq<int64>>)
    ensures rooms == Parsed(Split(csv))
  {
    if csv == "" {
      EmptyColumn();
      return Some([]);
    }
    hide ParseInt, Parsed, Split;
    var fields := Split(csv);
    var ids: seq<int64> := [];
    NoFields(fields);
    for k := 0 to |fields|
      invariant Parsed(fields[..k]) == Some(ids)
    {
      UpTo(fields, k);
      if fields[k] != "" {
        var id := ParseInt(fields[k]);
        if id.None? { return None; }
        ids := ids + [id.value];
      } else {
        BothLaws(Some(ids), None, None);
      }
    }
    assert fields[..|fields|] == fields;
    return Some(ids);
  }

  // ---------- Round trip ----------

  lemma {:induction false} FormattedUnfolds(rooms: seq<int64>)
    requires rooms != []
    ensures Formatted(rooms) == [FormatInt(rooms[0])] + Formatted(rooms[1..])
  {
    hide FormatInt;
    if |rooms| > 1 {
      FormattedUnfolds(rooms[..|rooms| - 1]);
      assert rooms[..|rooms| - 1][1..] == rooms[1..][..|rooms| - 2];
    }
  }

  lemma CsvUnfolds(rooms: seq<int64>)
    requires rooms != []
    ensures Csv(rooms) == FormatInt(rooms[0]) + "," + Csv(rooms[1..])
  {
    hide FormatInt;
    FormattedUnfolds(rooms);
    if |rooms| > 1 {
      assert Formatted(rooms)[1..] == Formatted(rooms[1..]);
      assert Formatted(rooms[1..]) != [];
    } else {
      assert Formatted(rooms) == [FormatInt(rooms[0])];
      assert Csv(rooms) == FormatInt(rooms[0]) + "," + "";
    }
  }

  /** Whatever follows the list in the column, the list is read first, whole and in order. */
  lemma {:induction false} ListIsReadFirst(rooms: seq<int64>, rest: string)
    ensures Parsed(Split(Csv(rooms) + rest)) == Both(Some(rooms), Parsed(Split(rest)))
  {
    hide FormatInt, ParseInt, Parsed, Split;
    if rooms == [] {
      assert Csv(rooms) + rest == rest;
      BothLaws(Parsed(Split(rest)), None, None);
    } else {
      CsvUnfolds(rooms);
      var field, tail := FormatInt(rooms[0]), Csv(rooms[1..]) + rest;
      assert Csv(rooms) + rest == field + "," + tail;
      FormatIsField(rooms[0]);
      SplitOffField(field, tail);
      ListIsReadFirst(rooms[1..], rest);
      ParsedTogether([field], Split(tail));
      ParsedOne(rooms[0]);
      BothLaws(Some([rooms[0]]), Some(rooms[1..]), Parsed(Split(rest)));
      assert [rooms[0]] + rooms[1..] == rooms;
    }
  }

  lemma ParsedOne(room: int64)
    ensures Parsed([FormatInt(room)]) == Some([room])
  {
    hide FormatInt, ParseInt;
    ParseFormat(room);
    FormatIsField(room);
    assert [FormatInt(room)][..0] == [];
    assert [] + [room] == [room];
  }

  /** Reading what the flusher wrote returns the same list, for every list of room IDs. */
  lemma RoundTrip(rooms: seq<int64>)
    ensures Parsed(Split(Csv(rooms))) == Some(rooms)
  {
    hide Csv;
    ListIsReadFirst(rooms, "");
    assert Csv(rooms) + "" == Csv(rooms);
    EmptyColumn();
    BothLaws(Some(rooms), None, None);
  }
}
