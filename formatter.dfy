/**
 * The output formatter of internal/output/formatter.go: format selection,
 * the Print dispatch, PrintTable's two paths, PrintKeyValue, the success
 * and error messages, and the byte-size and uptime renderings.
 *
 * The writer is modelled as the sequence of things written to it: text
 * lines (without their trailing newline) and encoder calls, which carry the
 * format and the value handed to the JSON or YAML encoder.
 */
module Formatter {
  import opened Common
  import Table
  import UnraidClient
  import Config

  datatype Format = TableFormat | JSON | YAML

  function FormatName(f: Format): string {
    match f
    case TableFormat => "table"
    case JSON => "json"
    case YAML => "yaml"
  }

  /** output.New: lower-case the name; anything other than json or yaml is a table. */
  function ParseFormat(name: string): (f: Format)
    ensures f == JSON <==> ToLower(name) == "json"
    ensures f == YAML <==> ToLower(name) == "yaml"
    ensures f == TableFormat <==> ToLower(name) != "json" && ToLower(name) != "yaml"
  {
    var lowered := ToLower(name);
    if lowered == "json" then JSON
    else if lowered == "yaml" then YAML
    else TableFormat
  }

  /** Every format's own name selects it again, in any letter case. */
  lemma ParseFormatName(f: Format, spelled: string)
    requires ToLower(spelled) == FormatName(f)
    ensures ParseFormat(spelled) == f
  {
  }

  /** Normalising an already-normalised name changes nothing. */
  lemma ParseFormatIdempotent(name: string)
    ensures ParseFormat(FormatName(ParseFormat(name))) == ParseFormat(name)
  {
    var f := ParseFormat(name);
    assert ToLower(FormatName(f)) == FormatName(f);
  }

  /** What a caller hands to the encoder. */
  datatype Payload =
    | Records(rows: seq<map<string, string>>)
    | Fields(fields: map<string, string>)
    | Containers(items: seq<UnraidClient.Container>)
    | Shares(shares: seq<UnraidClient.Share>)
    | LogFile(file: UnraidClient.LogFileContent)
    | Servers(servers: seq<Config.ServerInfo>)

  datatype Emitted = Text(line: string) | Encoded(format: Format, payload: Payload)

  function Lines(ls: seq<string>): (out: seq<Emitted>)
    ensures |out| == |ls|
    ensures forall i :: 0 <= i < |ls| ==> out[i] == Text(ls[i])
  {
    seq(|ls|, i requires 0 <= i < |ls| => Text(ls[i]))
  }

  /** Writing one more line extends the written prefix by one. */
  lemma LinesStep(ls: seq<string>, n: nat)
    requires n < |ls|
    ensures Lines(ls[..n + 1]) == Lines(ls[..n]) + [Text(ls[n])]
  {
    assert ls[..n + 1] == ls[..n] + [ls[n]];
  }

  /** The inner loop of PrintTable's record branch: one header-to-cell map. */
  method RowMap(headers: seq<string>, row: seq<string>) returns (rowMap: map<string, string>)
    ensures rowMap == Table.RowRecord(headers, row)
  {
    rowMap := map[];
    var j := 0;
    while j < |headers|
      invariant 0 <= j <= |headers|
      invariant rowMap == Table.RowRecord(headers[..j], row)
    {
      if j < |row| {
        rowMap := rowMap[headers[j] := row[j]];
      }
      assert headers[..j + 1][..j] == headers[..j];
      j := j + 1;
    }
    assert headers[..|headers|] == headers;
  }

  /** The outer loop of PrintTable's record branch, filling a fixed-size slice. */
  method RecordsOf(headers: seq<string>, rows: seq<seq<string>>) returns (records: seq<map<string, string>>)
    ensures records == Table.Records(headers, rows)
  {
    var data := new map<string, string>[|rows|](_ => map[]);
    var i := 0;
    while i < |rows|
      invariant 0 <= i <= |rows|
      invariant forall k :: 0 <= k < i ==> data[k] == Table.RowRecord(headers, rows[k])
    {
      var rowMap := RowMap(headers, rows[i]);
      data[i] := rowMap;
      i := i + 1;
    }
    records := data[..];
  }

  const TableNeedsPrintTable := "table format requires using PrintTable method"

  function KeyValueLine(key: string, value: string): string {
    key + ":\t" + value
  }

  class Formatter {
    const format: Format
    /** Everything written so far, in order. */
    var output: seq<Emitted>

    constructor (name: string)
      ensures format == ParseFormat(name)
      ensures output == []
    {
      format := ParseFormat(name);
      output := [];
    }

    /**
     * Print: structured formats go to their encoder (assumed to succeed);
     * table mode refuses and writes nothing.
     */
    method Print(data: Payload) returns (err: Option<string>)
      modifies this
      ensures format == TableFormat ==> err == Some(TableNeedsPrintTable) && output == old(output)
      ensures format != TableFormat ==> err == None && output == old(output) + [Encoded(format, data)]
    {
      if format == TableFormat {
        err := Some(TableNeedsPrintTable);
      } else {
        output := output + [Encoded(format, data)];
        err := None;
      }
    }

    /**
     * PrintTable: in table mode the header, separator and row lines of
     * Table.Render; otherwise one header-to-cell record per row, handed
     * to Print (whose error is discarded).
     */
    method PrintTable(headers: seq<string>, rows: seq<seq<string>>)
      modifies this
      ensures format == TableFormat ==> output == old(output) + Lines(Table.Render(headers, rows))
      ensures format != TableFormat ==>
                output == old(output) + [Encoded(format, Records(Table.Records(headers, rows)))]
    {
      if format != TableFormat {
        var data := RecordsOf(headers, rows);
        var ignored := Print(Records(data));
        return;
      }

      var widths := ColumnWidths(headers, rows);
      ghost var lines := Table.Render(headers, rows);
      var headerLine := JoinCells(Table.HeaderCells(headers, widths));
      var separator := JoinCells(Table.SeparatorCells(widths));
      output := output + [Text(headerLine), Text(separator)];
      assert lines[..2] == [headerLine, separator];
      var r := 0;
      while r < |rows|
        invariant 0 <= r <= |rows|
        invariant output == old(output) + Lines(lines[..2 + r])
      {
        var line := JoinCells(Table.RowCells(widths, rows[r]));
        LinesStep(lines, 2 + r);
        output := output + [Text(line)];
        r := r + 1;
      }
      assert lines[..2 + |rows|] == lines;
    }

    /**
     * PrintKeyValue: in table mode one "key:\tvalue" line per entry, in
     * some order (Go's map order is unspecified); otherwise the map goes
     * to Print.
     */
    method PrintKeyValue(data: map<string, string>) returns (err: Option<string>)
      modifies this
      ensures err == None
      ensures format != TableFormat ==> output == old(output) + [Encoded(format, Fields(data))]
      ensures format == TableFormat ==> |output| == |old(output)| + |data|
      ensures format == TableFormat ==> output[..|old(output)|] == old(output)
      ensures format == TableFormat ==>
                forall key :: key in data ==> Text(KeyValueLine(key, data[key])) in output[|old(output)|..]
      ensures format == TableFormat ==>
                forall e :: e in output[|old(output)|..] ==>
                  exists key :: key in data && e == Text(KeyValueLine(key, data[key]))
    {
      if format == TableFormat {
        ghost var before := output;
        var remaining := data.Keys;
        while remaining != {}
          invariant remaining <= data.Keys
          invariant |output| == |before| + |data.Keys| - |remaining|
          invariant output[..|before|] == before
          invariant forall key :: key in data.Keys - remaining ==>
                      Text(KeyValueLine(key, data[key])) in output[|before|..]
          invariant forall e :: e in output[|before|..] ==>
                      exists key :: key in data && e == Text(KeyValueLine(key, data[key]))
          decreases |remaining|
        {
          var key :| key in remaining;
          var written := output[|before|..];
          output := output + [Text(KeyValueLine(key, data[key]))];
          assert output[|before|..] == written + [Text(KeyValueLine(key, data[key]))];
          remaining := remaining - {key};
        }
        err := None;
      } else {
        err := Print(Fields(data));
      }
    }

    /** PrintSuccess: a check-marked line in table mode, a status record otherwise. */
    method PrintSuccess(message: string)
      modifies this
      ensures format == TableFormat ==> output == old(output) + [Text("\U{2713} " + message)]
      ensures format != TableFormat ==>
                output == old(output) + [Encoded(format, Fields(map["status" := "success", "message" := message]))]
    {
      if format == TableFormat {
        output := output + [Text("\U{2713} " + message)];
      } else {
        var ignored := Print(Fields(map["status" := "success", "message" := message]));
      }
    }

    /** PrintError: a cross-marked line in table mode, a status record otherwise. */
    method PrintError(message: string)
      modifies this
      ensures format == TableFormat ==> output == old(output) + [Text("\U{2717} " + message)]
      ensures format != TableFormat ==>
                output == old(output) + [Encoded(format, Fields(map["status" := "error", "message" := message]))]
    {
      if format == TableFormat {
        output := output + [Text("\U{2717} " + message)];
      } else {
        var ignored := Print(Fields(map["status" := "error", "message" := message]));
      }
    }
  }

  /** The column-width pass of PrintTable, on an array updated in place. */
  method ColumnWidths(headers: seq<string>, rows: seq<seq<string>>) returns (widths: seq<nat>)
    ensures widths == Table.Widths(headers, rows)
  {
    var w := new nat[|headers|];
    var i := 0;
    while i < |headers|
      invariant 0 <= i <= |headers|
      invariant forall j :: 0 <= j < i ==> w[j] == |headers[j]|
    {
      w[i] := |headers[i]|;
      i := i + 1;
    }
    assert w[..] == Table.Widths(headers, rows[..0]);
    var r := 0;
    while r < |rows|
      invariant 0 <= r <= |rows|
      invariant w[..] == Table.Widths(headers, rows[..r])
    {
      var row := rows[r];
      ghost var before := w[..];
      var c := 0;
      while c < |row|
        invariant 0 <= c <= |row|
        invariant forall j :: 0 <= j < w.Length ==>
                    w[j] == if j < c then Table.Widen(before, row)[j] else before[j]
      {
        if c < w.Length && |row[c]| > w[c] {
          w[c] := |row[c]|;
        }
        c := c + 1;
      }
      assert w[..] == Table.Widen(before, row);
      assert rows[..r + 1][..r] == rows[..r];
      r := r + 1;
    }
    assert rows[..|rows|] == rows;
    widths := w[..];
  }

  /** Writes cells with a two-space gutter before every cell but the first. */
  method JoinCells(cells: seq<string>) returns (line: string)
    ensures line == Table.Join(cells)
  {
    line := "";
    var i := 0;
    while i < |cells|
      invariant 0 <= i <= |cells|
      invariant line == Table.Join(cells[..i])
    {
      Table.JoinSnoc(cells, i);
      if i > 0 {
        line := line + "  ";
      }
      line := line + cells[i];
      i := i + 1;
    }
    assert cells[..|cells|] == cells;
  }

  // ---------------------------------------------------------------------
  // FormatBytes
  // ---------------------------------------------------------------------

  function Pow(b: nat, e: nat): nat {
    if e == 0 then 1 else b * Pow(b, e - 1)
  }

  const Units := "KMGTPE"

  /**
   * The rendering FormatBytes chooses: the exact "<n> B" text below 1024,
   * otherwise the divisor and unit letter of "%.1f <unit>iB" (the
   * decimal text of the quotient is not modelled).
   */
  datatype ByteSize = Exact(text: string) | Scaled(exp: nat, divisor: nat, unit: char)

  lemma MulMono(a: nat, x: nat, y: nat)
    requires x <= y
    ensures a * x <= a * y
  {
    assert a * y == a * x + a * (y - x);
  }

  /** One pass of the unit loop keeps `bytes` within [div * n, div * (n + 1)). */
  lemma UnitStep(bytes: nat, div: nat, n: nat)
    requires div > 0 && n >= 1024
    requires div * n <= bytes < div * (n + 1)
    ensures (div * 1024) * (n / 1024) <= bytes < (div * 1024) * (n / 1024 + 1)
    ensures div * 1024 <= bytes
  {
    var q, r := n / 1024, n % 1024;
    assert n == 1024 * q + r;
    assert (div * 1024) * q == div * (1024 * q);
    MulMono(div, 1024 * q, n);
    assert (div * 1024) * (q + 1) == div * (1024 * q + 1024);
    MulMono(div, n + 1, 1024 * q + 1024);
    MulMono(div * 1024, 1, q);
  }

  /** Powers of 1024 grow strictly. */
  lemma {:induction false} PowMono(a: nat, b: nat)
    requires a < b
    ensures Pow(1024, a) < Pow(1024, b)
    decreases b
  {
    if a < b - 1 {
      PowMono(a, b - 1);
    }
    PowPositive(b - 1);
  }

  lemma {:induction false} PowPositive(e: nat)
    ensures Pow(1024, e) >= 1
  {
    if e > 0 {
      PowPositive(e - 1);
    }
  }

  /**
   * The unit exponent found by searching the powers of 1024 upwards from
   * `e`: the first e with bytes < 1024^(e+2), and at most 5 ("E").
   */
  function UnitExponent(bytes: nat, e: nat): (r: nat)
    requires e <= 5
    ensures e <= r <= 5
    decreases 5 - e
  {
    if e == 5 || bytes < Pow(1024, e + 2) then e else UnitExponent(bytes, e + 1)
  }

  /** An exponent whose power bounds `bytes` is the one the search finds. */
  lemma {:induction false} UnitExponentUnique(bytes: nat, k: nat, e: nat)
    requires k <= e <= 5
    requires Pow(1024, e + 1) <= bytes < Pow(1024, e + 2)
    ensures UnitExponent(bytes, k) == e
    decreases e - k
  {
    if k < e {
      if k + 2 < e + 1 {
        PowMono(k + 2, e + 1);
      }
      UnitExponentUnique(bytes, k + 1, e);
    }
  }

  /** The search stays within the powers of 1024 that bound an int64. */
  lemma {:induction false} UnitExponentBounds(bytes: Int64, k: nat)
    requires k <= 5 && Pow(1024, k + 1) <= bytes
    ensures Pow(1024, UnitExponent(bytes, k) + 1) <= bytes < Pow(1024, UnitExponent(bytes, k) + 2)
    decreases 5 - k
  {
    if k < 5 && bytes >= Pow(1024, k + 2) {
      UnitExponentBounds(bytes, k + 1);
    } else if k == 5 {
      assert Pow(1024, 7) == 0x40_0000_0000_0000_0000;
    }
  }

  /** FormatBytes' choice, as a function: exact below 1024, else the bounding power of 1024. */
  function ByteSizeOf(bytes: Int64): (r: ByteSize)
    ensures bytes < 1024 <==> r.Exact?
    ensures r.Scaled? ==> r.exp < |Units| && r.unit == Units[r.exp] && r.divisor == Pow(1024, r.exp + 1)
    ensures r.Scaled? ==> Pow(1024, r.exp + 1) <= bytes < Pow(1024, r.exp + 2)
  {
    if bytes < 1024 then Exact(IntToString(bytes) + " B")
    else
      var e := UnitExponent(bytes, 0);
      UnitExponentBounds(bytes, 0);
      Scaled(e, Pow(1024, e + 1), Units[e])
  }

  /**
   * The text FormatBytes returns for `bytes`; `decimal` stands for Go's
   * "%.1f" rendering of the quotient.
   */
  function ByteSizeText(bytes: Int64, decimal: real -> string): string {
    match ByteSizeOf(bytes)
    case Exact(text) => text
    case Scaled(_, divisor, unit) => decimal(bytes as real / divisor as real) + " " + [unit] + "iB"
  }

  /** FormatBytes: the unit loop divides by 1024 until the quotient is below 1024. */
  method FormatBytes(bytes: Int64) returns (r: ByteSize)
    ensures r == ByteSizeOf(bytes)
    ensures bytes < 1024 ==> r == Exact(IntToString(bytes) + " B")
    ensures r.Scaled? ==> Pow(1024, r.exp + 1) <= bytes < Pow(1024, r.exp + 2)
  {
    if bytes < 1024 {
      return Exact(IntToString(bytes) + " B");
    }
    var div: nat, exp: nat := 1024, 0;
    var n := bytes / 1024;
    assert Pow(1024, 7) == 0x40_0000_0000_0000_0000;
    while n >= 1024
      invariant div == Pow(1024, exp + 1)
      invariant div <= bytes
      invariant exp <= 5
      invariant div * n <= bytes < div * (n + 1)
      decreases n
    {
      UnitStep(bytes, div, n);
      div := div * 1024;
      exp := exp + 1;
      n := n / 1024;
    }
    MulMono(div, n + 1, 1024);
    UnitExponentUnique(bytes, 0, exp);
    return Scaled(exp, div, Units[exp]);
  }

  // ---------------------------------------------------------------------
  // FormatUptime
  // ---------------------------------------------------------------------

  /** Go's integer division and remainder truncate toward zero. */
  function GoDiv(a: int, b: nat): int
    requires b > 0
  {
    if a >= 0 then a / b else -((-a) / b)
  }

  function GoMod(a: int, b: nat): int
    requires b > 0
  {
    a - b * GoDiv(a, b)
  }

  datatype Uptime = Uptime(days: int, hours: int, minutes: int)

  /** Days, hours of the day and minutes of the hour, with Go's truncating arithmetic. */
  function UptimeParts(seconds: int): (u: Uptime)
    ensures seconds >= 0 ==> u.days >= 0 && 0 <= u.hours < 24 && 0 <= u.minutes < 60
    ensures seconds >= 0 ==>
              u.days * 86400 + u.hours * 3600 + u.minutes * 60 <= seconds
              < u.days * 86400 + u.hours * 3600 + u.minutes * 60 + 60
  {
    if seconds >= 0 then UptimeArithmetic(seconds); Uptime(seconds / 86400, (seconds % 86400) / 3600, (seconds % 3600) / 60)
    else Uptime(GoDiv(seconds, 86400), GoDiv(GoMod(seconds, 86400), 3600), GoDiv(GoMod(seconds, 3600), 60))
  }

  lemma UptimeArithmetic(s: nat)
    ensures s / 86400 * 86400 + (s % 86400) / 3600 * 3600 + (s % 3600) / 60 * 60 <= s
    ensures s < s / 86400 * 86400 + (s % 86400) / 3600 * 3600 + (s % 3600) / 60 * 60 + 60
    ensures (s % 86400) / 3600 < 24
  {
    var d, r := s / 86400, s % 86400;
    var h, r2 := r / 3600, r % 3600;
    var m, r3 := r2 / 60, r2 % 60;
    assert s == 86400 * d + r;
    assert r == 3600 * h + r2;
    assert r2 == 60 * m + r3;
    assert s == 3600 * (24 * d + h) + r2;
    assert s % 3600 == r2;
  }

  function FormatUptime(seconds: int): (r: string)
    ensures HasSuffix(r, IntToString(UptimeParts(seconds).minutes) + "m")
    ensures seconds >= 0 ==> ('d' in r <==> seconds >= 86400)
    ensures seconds >= 0 ==> ('h' in r <==> seconds >= 3600)
    ensures var u := UptimeParts(seconds);
            seconds >= 86400 ==>
              r == IntToString(u.days) + "d " + IntToString(u.hours) + "h " + IntToString(u.minutes) + "m"
    ensures var u := UptimeParts(seconds);
            3600 <= seconds < 86400 ==> r == IntToString(u.hours) + "h " + IntToString(u.minutes) + "m"
    ensures 0 <= seconds < 3600 ==> r == IntToString(UptimeParts(seconds).minutes) + "m"
  {
    var u := UptimeParts(seconds);
    var m := IntToString(u.minutes) + "m";
    if u.days > 0 then IntToString(u.days) + "d " + IntToString(u.hours) + "h " + m
    else if u.hours > 0 then IntToString(u.hours) + "h " + m
    else m
  }
}
