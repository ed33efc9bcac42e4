/** The allocation annotation: one segment per container, one field list per grant. */
module Codec {
  import opened Devices
  import opened Text

  datatype Result<+T> = Ok(value: T) | Err

  function EncodeGrant(e: ContainerDevice): string {
    e.uuid + "," + e.typ + "," + FormatInt(e.mem) + "," + FormatInt(e.cores)
    + (if e.slots > 1 then "," + FormatInt(e.slots) else "") + ":"
  }

  function EncodeRow(row: ContainerDevices): string {
    if row == [] then "" else EncodeGrant(row[0]) + EncodeRow(row[1..])
  }

  function EncodeRows(rows: PodSingleDevice): string {
    if rows == [] then "" else EncodeRow(rows[0]) + ";" + EncodeRows(rows[1..])
  }

  /** One grant segment. An unusable slot count is ignored, everything else is an error. */
  function DecodeGrant(s: string): Result<ContainerDevice> {
    var f := Split(s, ',');
    if |f| < 4 || f[0] == "" || f[1] == "" then Err
    else
      var mem, cores := ParseInt(f[2]), ParseInt(f[3]);
      if mem.None? || mem.value < 0 || cores.None? || cores.value < 0 then Err
      else
        var slots := if |f| >= 5 then ParseInt(f[4]) else None;
        Ok(ContainerDevice(f[0], f[1], mem.value, cores.value, if slots.Some? && slots.value >= 0 then slots.value else 0))
  }

  /** The grants of the non-empty segments. */
  function DecodeSegments(parts: seq<string>): Result<ContainerDevices> {
    if parts == [] then Ok([])
    else if parts[0] == "" then DecodeSegments(parts[1..])
    else
      match (DecodeGrant(parts[0]), DecodeSegments(parts[1..]))
      case (Ok(e), Ok(row)) => Ok([e] + row)
      case _ => Err
  }

  function DecodeRow(s: string): Result<ContainerDevices> {
    DecodeSegments(Split(s, ':'))
  }

  predicate Decodable(parts: seq<string>) {
    forall i :: 0 <= i < |parts| ==> DecodeRow(parts[i]).Ok?
  }

  /** One row per segment; a single bad segment spoils the whole annotation. */
  function DecodeParts(parts: seq<string>): Result<PodSingleDevice> {
    if Decodable(parts) then Ok(seq(|parts|, i requires 0 <= i < |parts| => DecodeRow(parts[i]).value)) else Err
  }

  /** The rows of an annotation. Empty segments stay, so that positions keep naming containers. */
  function DecodeRows(s: string): Result<PodSingleDevice> {
    DecodeParts(Split(s, ';'))
  }

  // ---------- The loops ----------

  lemma {:induction false} EncodeRowAppend(row: ContainerDevices, e: ContainerDevice)
    ensures EncodeRow(row + [e]) == EncodeRow(row) + EncodeGrant(e)
  {
    if row == [] {
      assert row + [e] == [e] && [e][1..] == [];
    } else {
      EncodeRowAppend(row[1..], e);
      assert (row + [e])[1..] == row[1..] + [e];
      Reassociate(EncodeGrant(row[0]), EncodeRow(row[1..]), EncodeGrant(e));
    }
  }

  lemma Reassociate(a: string, b: string, c: string)
    ensures a + (b + c) == (a + b) + c
  {
  }

  lemma {:induction false} EncodeRowsAppend(rows: PodSingleDevice, row: ContainerDevices)
    ensures EncodeRows(rows + [row]) == EncodeRows(rows) + (EncodeRow(row) + ";")
  {
    if rows == [] {
      assert rows + [row] == [row] && [row][1..] == [];
    } else {
      EncodeRowsAppend(rows[1..], row);
      assert (rows + [row])[1..] == rows[1..] + [row];
      Reassociate(EncodeRow(rows[0]) + ";", EncodeRows(rows[1..]), EncodeRow(row) + ";");
    }
  }

  method EncodeContainerDevices(row: ContainerDevices) returns (s: string)
    ensures s == EncodeRow(row)
  {
    s := "";
    for i := 0 to |row|
      invariant s == EncodeRow(row[..i])
    {
      assert row[..i + 1] == row[..i] + [row[i]];
      EncodeRowAppend(row[..i], row[i]);
      s := s + EncodeGrant(row[i]);
    }
    assert row[..|row|] == row;
  }

  method EncodePodSingleDevice(rows: PodSingleDevice) returns (s: string)
    ensures s == EncodeRows(rows)
  {
    s := "";
    for i := 0 to |rows|
      invariant s == EncodeRows(rows[..i])
    {
      assert rows[..i + 1] == rows[..i] + [rows[i]];
      EncodeRowsAppend(rows[..i], rows[i]);
      var r := EncodeContainerDevices(rows[i]);
      Reassociate(s, r, ";");
      s := s + r;
      s := s + ";";
    }
    assert rows[..|rows|] == rows;
  }

  method DecodeContainerDevices(s: string) returns (row: Result<ContainerDevices>)
    ensures row == DecodeRow(s)
  {
    if |s| == 0 {
      assert Split(s, ':') == [""] && [""][1..] == [];
      assert DecodeSegments([""]) == DecodeSegments([]);
      return Ok([]);
    }
    var parts := Split(s, ':');
    var devices: ContainerDevices := [];
    assert parts[0..] == parts;
    assert DecodeSegments(parts).Ok? ==> [] + DecodeSegments(parts).value == DecodeSegments(parts).value;
    for i := 0 to |parts|
      invariant DecodeSegments(parts) == Prefixed(devices, DecodeSegments(parts[i..]))
    {
      ghost var before, rest := devices, DecodeSegments(parts[i + 1..]);
      assert parts[i..][1..] == parts[i + 1..];
      if parts[i] == "" {
        continue;
      }
      var e := DecodeGrant(parts[i]);
      if e.Err? {
        return Err;
      }
      devices := devices + [e.value];
      assert rest.Ok? ==> before + ([e.value] + rest.value) == devices + rest.value;
    }
    assert parts[|parts|..] == [] && devices + [] == devices;
    return Ok(devices);
  }

  function Prefixed(front: ContainerDevices, rest: Result<ContainerDevices>): Result<ContainerDevices> {
    match rest
    case Err => Err
    case Ok(row) => Ok(front + row)
  }

  /** The rows of one annotation value. */
  method DecodePodSingleDevice(s: string) returns (rows: Result<PodSingleDevice>)
    ensures rows == DecodeRows(s)
  {
    var parts := Split(s, ';');
    var acc: PodSingleDevice := [];
    for i := 0 to |parts|
      invariant |acc| == i && forall j :: 0 <= j < i ==> DecodeRow(parts[j]) == Ok(acc[j])
    {
      var row := DecodeContainerDevices(parts[i]);
      if row.Err? {
        return Err;
      }
      acc := acc + [row.value];
    }
    assert DecodeParts(parts).value == acc;
    return Ok(acc);
  }

  /** Swaps one container's segment and keeps every other byte. */
  function ReplaceEntry(anno: string, index: nat, row: ContainerDevices): Result<string> {
    var parts := Split(anno, ';');
    if index >= |parts| || parts[index] == "" then Err
    else Ok(Join(parts[index := EncodeRow(row)], ';'))
  }

  // ---------- Round trip ----------

  predicate CleanName(s: string) {
    s != "" && Free(s, ',') && Free(s, ':') && Free(s, ';')
  }

  predicate CleanRow(row: ContainerDevices) {
    forall i :: 0 <= i < |row| ==> CleanName(row[i].uuid) && CleanName(row[i].typ)
  }

  predicate CleanRows(rows: PodSingleDevice) {
    forall i :: 0 <= i < |rows| ==> CleanRow(rows[i])
  }

  /** What survives: a slot count of one is not written and comes back as unset. */
  function Norm(e: ContainerDevice): ContainerDevice {
    e.(slots := if e.slots > 1 then e.slots else 0)
  }

  function NormRow(row: ContainerDevices): ContainerDevices {
    seq(|row|, i requires 0 <= i < |row| => Norm(row[i]))
  }

  function NormRows(rows: PodSingleDevice): PodSingleDevice {
    seq(|rows|, i requires 0 <= i < |rows| => NormRow(rows[i]))
  }

  function Fields(e: ContainerDevice): seq<string> {
    [e.uuid, e.typ, FormatInt(e.mem), FormatInt(e.cores)] + if e.slots > 1 then [FormatInt(e.slots)] else []
  }

  /** A grant without its closing separator. */
  function GrantBody(e: ContainerDevice): string {
    Join(Fields(e), ',')
  }

  lemma GrantIsBody(e: ContainerDevice)
    ensures EncodeGrant(e) == GrantBody(e) + ":"
  {
    var m, c := FormatInt(e.mem), FormatInt(e.cores);
    var tail := [c] + if e.slots > 1 then [FormatInt(e.slots)] else [];
    var end := if e.slots > 1 then "," + FormatInt(e.slots) else "";
    assert Join(tail, ',') == c + end by {
      if e.slots > 1 {
        JoinCons(c, [FormatInt(e.slots)], ',');
        assert c + [','] + FormatInt(e.slots) == c + end;
      } else {
        assert tail == [c] && c + end == c;
      }
    }
    JoinCons(m, tail, ',');
    JoinCons(e.typ, [m] + tail, ',');
    JoinCons(e.uuid, [e.typ] + ([m] + tail), ',');
    assert Fields(e) == [e.uuid] + ([e.typ] + ([m] + tail));
    var body := e.uuid + "," + (e.typ + "," + (m + "," + (c + end)));
    assert GrantBody(e) == body;
    assert EncodeGrant(e) == body + ":";
  }

  lemma GrantRoundTrip(e: ContainerDevice)
    requires CleanName(e.uuid) && CleanName(e.typ)
    ensures DecodeGrant(GrantBody(e)) == Ok(Norm(e))
  {
    var f := Fields(e);
    FormatFree(e.mem, ',');
    FormatFree(e.cores, ',');
    FormatFree(e.slots, ',');
    SplitJoin(f, ',');
    ParseFormat(e.mem);
    ParseFormat(e.cores);
    ParseFormat(e.slots);
  }

  lemma BodyFree(e: ContainerDevice, x: char)
    requires Free(e.uuid, x) && Free(e.typ, x) && !IsDigit(x) && x != ','
    ensures Free(GrantBody(e), x)
  {
    FormatFree(e.mem, x);
    FormatFree(e.cores, x);
    FormatFree(e.slots, x);
    JoinFree(Fields(e), ',', x);
  }

  lemma {:induction false} RowRoundTrip(row: ContainerDevices)
    requires CleanRow(row)
    ensures DecodeRow(EncodeRow(row)) == Ok(NormRow(row))
  {
    if row == [] {
      assert Split("", ':') == [""] && [""][1..] == [];
      assert DecodeSegments([""]) == DecodeSegments([]);
    } else {
      var e, rest := row[0], EncodeRow(row[1..]);
      RowRoundTrip(row[1..]);
      GrantIsBody(e);
      BodyFree(e, ':');
      BodyNonempty(e);
      SplitAt(GrantBody(e), rest, ':');
      GrantRoundTrip(e);
      assert EncodeRow(row) == GrantBody(e) + [':'] + rest;
      var parts := [GrantBody(e)] + Split(rest, ':');
      assert parts[1..] == Split(rest, ':');
      assert NormRow(row) == [Norm(e)] + NormRow(row[1..]);
    }
  }

  lemma BodyNonempty(e: ContainerDevice)
    ensures GrantBody(e) != ""
  {
  }

  lemma {:induction false} RowFree(row: ContainerDevices)
    requires CleanRow(row)
    ensures Free(EncodeRow(row), ';')
  {
    if row != [] {
      RowFree(row[1..]);
      GrantIsBody(row[0]);
      BodyFree(row[0], ';');
    }
  }

  function Segments(rows: PodSingleDevice): seq<string> {
    seq(|rows|, i requires 0 <= i < |rows| => EncodeRow(rows[i]))
  }

  lemma {:induction false} RowsSplit(rows: PodSingleDevice)
    requires CleanRows(rows)
    ensures Split(EncodeRows(rows), ';') == Segments(rows) + [""]
  {
    if rows != [] {
      var first, rest := EncodeRow(rows[0]), EncodeRows(rows[1..]);
      RowsSplit(rows[1..]);
      RowFree(rows[0]);
      SplitAt(first, rest, ';');
      SegmentsFirst(rows);
    }
  }

  lemma SegmentsFirst(rows: PodSingleDevice)
    requires rows != []
    ensures [EncodeRow(rows[0])] + (Segments(rows[1..]) + [""]) == Segments(rows) + [""]
  {
    assert Segments(rows) == [EncodeRow(rows[0])] + Segments(rows[1..]);
  }

  /** Decoding what was encoded gives the same rows and one empty row at the end. */
  lemma RoundTrip(rows: PodSingleDevice)
    requires CleanRows(rows)
    ensures DecodeRows(EncodeRows(rows)) == Ok(NormRows(rows) + [[]])
  {
    var parts := Segments(rows) + [""];
    RowsSplit(rows);
    RowRoundTrip([]);
    forall i | 0 <= i < |parts| ensures DecodeRow(parts[i]) == Ok((NormRows(rows) + [[]])[i]) {
      if i < |rows| { RowRoundTrip(rows[i]); }
    }
    assert DecodeParts(parts).value == NormRows(rows) + [[]];
  }

  /** A container with a decoded grant has an entry to replace. */
  lemma ReplaceOk(anno: string, index: nat, row: ContainerDevices)
    requires DecodeRows(anno).Ok? && index < |DecodeRows(anno).value| && DecodeRows(anno).value[index] != []
    ensures ReplaceEntry(anno, index, row).Ok?
  {
    RowRoundTrip([]);
  }

  /** Replacing an entry changes exactly the indexed row of the decoded annotation. */
  lemma ReplaceChangesOneRow(anno: string, index: nat, row: ContainerDevices)
    requires CleanRow(row) && DecodeRows(anno).Ok? && ReplaceEntry(anno, index, row).Ok?
    ensures index < |DecodeRows(anno).value|
    ensures DecodeRows(ReplaceEntry(anno, index, row).value) == Ok(DecodeRows(anno).value[index := NormRow(row)])
  {
    var parts := Split(anno, ';');
    var replaced := parts[index := EncodeRow(row)];
    RowFree(row);
    SplitJoin(replaced, ';');
    RowRoundTrip(row);
    assert DecodeParts(replaced).value == DecodeParts(parts).value[index := NormRow(row)];
  }

  /** The text of one grant: identifier, type, memory and cores, with commas between them and a
      colon after them. A slot count follows only if it is above one. */
  lemma WireFormat(d: string, t: string, mem: nat, cores: nat, slots: nat)
    requires CleanName(d) && CleanName(t) && slots > 1
    ensures EncodeRow([ContainerDevice(d, t, mem, cores, 0)]) == d + "," + t + "," + FormatInt(mem) + "," + FormatInt(cores) + ":"
    ensures EncodeRow([ContainerDevice(d, t, mem, cores, slots)]) == d + "," + t + "," + FormatInt(mem) + "," + FormatInt(cores) + "," + FormatInt(slots) + ":"
    ensures DecodeRow(d + "," + t + "," + FormatInt(mem) + "," + FormatInt(cores) + ":") == Ok([ContainerDevice(d, t, mem, cores, 0)])
  {
    var plain, some := ContainerDevice(d, t, mem, cores, 0), ContainerDevice(d, t, mem, cores, slots);
    SingleRowText(plain);
    SingleRowText(some);
    RowRoundTrip([plain]);
    assert NormRow([plain]) == [plain];
  }

  lemma SingleRowText(e: ContainerDevice)
    ensures EncodeRow([e]) == EncodeGrant(e)
  {
    assert [e][1..] == [] && EncodeGrant(e) + "" == EncodeGrant(e);
  }

  /** The rows of a type: every row followed by a semicolon, in the order of the containers. */
  lemma RowsFormat(a: ContainerDevices, b: ContainerDevices)
    ensures EncodeRows([a, b]) == EncodeRow(a) + ";" + EncodeRow(b) + ";"
  {
    assert [a, b][1..] == [b] && [b][1..] == [];
    assert EncodeRows([b]) == EncodeRow(b) + ";" + "";
  }

  lemma JoinFour(a: string, b: string, c: string, e: string)
    ensures Join([a, b, c, e], ',') == a + "," + b + "," + c + "," + e
  {
    JoinCons(c, [e], ',');
    JoinCons(b, [c, e], ',');
    JoinCons(a, [b, c, e], ',');
    assert [a, b, c, e] == [a] + ([b] + ([c] + [e])) && [b, c, e] == [b] + ([c] + [e]) && [c, e] == [c] + [e];
    assert a + [','] + (b + [','] + (c + [','] + e)) == a + "," + b + "," + c + "," + e;
  }

  /** A grant whose memory or cores is not a number makes the whole annotation unreadable, and so
      does one without an identifier or with too few fields. */
  lemma Malformed(a: string, b: string, c: string, e: string)
    requires Free(a, ',') && Free(b, ',') && Free(c, ',') && Free(e, ',')
    ensures a == "" || b == "" || ParseInt(c).None? || ParseInt(e).None? ==> DecodeGrant(a + "," + b + "," + c + "," + e).Err?
    ensures ParseInt(c) == Some(-1) || ParseInt(e) == Some(-1) ==> DecodeGrant(a + "," + b + "," + c + "," + e).Err?
    ensures DecodeGrant(a).Err?
  {
    JoinFour(a, b, c, e);
    SplitJoin([a, b, c, e], ',');
    SplitFree(a, ',');
  }
}
