/**
 * The `shares ls` and `shares info` commands (cmd/shares.go): the table
 * rows of the share listing (sizes, usage percentage, cache mark and a
 * shortened comment) and the lookup of one share by name.
 *
 * Go's "%.1f" rendering of a float is the parameter `decimal`.
 */
module SharesCmd {
  import opened Common
  import opened UnraidClient
  import F = Formatter
  import Table

  const CommentWidth := 30

  /** Comments longer than 30 characters keep their first 27 and end in "...". */
  function TruncateComment(comment: string): (r: string)
    ensures |r| <= CommentWidth
    ensures |comment| <= CommentWidth ==> r == comment
    ensures |comment| > CommentWidth ==> |r| == CommentWidth && r == comment[..27] + "..."
    ensures HasPrefix(comment, r) || HasSuffix(r, "...")
  {
    if |comment| > CommentWidth then comment[..27] + "..." else comment
  }

  /** Shortening twice is shortening once. */
  lemma TruncateIdempotent(comment: string)
    ensures TruncateComment(TruncateComment(comment)) == TruncateComment(comment)
  {
  }

  /** The used share of the size, in percent; None for a share of size zero or less. */
  function UsedPercent(s: Share): (p: Option<real>)
    ensures p.None? <==> s.size <= 0
    ensures p.Some? && 0 <= s.used <= s.size ==> 0.0 <= p.value <= 100.0
  {
    if s.size > 0 then
      if 0 <= s.used <= s.size then RatioBound(s.used as real, s.size as real); Some(s.used as real / s.size as real * 100.0)
      else Some(s.used as real / s.size as real * 100.0)
    else None
  }

  lemma RatioBound(x: real, y: real)
    requires 0.0 <= x <= y && y > 0.0
    ensures 0.0 <= x / y <= 1.0
  {
    assert x / y * y == x;
  }

  function UsedCell(s: Share, decimal: real -> string): (cell: string)
    ensures s.size <= 0 ==> cell == "0%"
    ensures s.size > 0 ==> cell == decimal(UsedPercent(s).value) + "%"
  {
    match UsedPercent(s)
    case None => "0%"
    case Some(p) => decimal(p) + "%"
  }

  const Headers := ["Name", "Total", "Used", "Free", "% Used", "Cache", "Comment"]

  /** One table row per share, cell for cell under Headers. */
  function ShareRow(s: Share, decimal: real -> string): (row: seq<string>)
    ensures |row| == |Headers|
    ensures row[0] == s.name
    ensures row[1] == F.ByteSizeText(s.size, decimal)
    ensures row[2] == F.ByteSizeText(s.used, decimal)
    ensures row[3] == F.ByteSizeText(s.free, decimal)
    ensures row[4] == UsedCell(s, decimal)
    ensures row[5] != "" <==> s.cache
    ensures |row[6]| <= CommentWidth && row[6] == TruncateComment(s.comment)
  {
    [s.name, F.ByteSizeText(s.size, decimal), F.ByteSizeText(s.used, decimal), F.ByteSizeText(s.free, decimal),
     UsedCell(s, decimal), if s.cache then "✓" else "", TruncateComment(s.comment)]
  }

  /** The text of one FormatBytes call. */
  method BytesCell(bytes: Int64, decimal: real -> string) returns (cell: string)
    ensures cell == F.ByteSizeText(bytes, decimal)
  {
    var size := F.FormatBytes(bytes);
    match size
    case Exact(text) =>
      cell := text;
    case Scaled(_, divisor, unit) =>
      cell := decimal(bytes as real / divisor as real) + " " + [unit] + "iB";
  }

  /** The body of the row loop of `shares ls`: the cells of one share. */
  method BuildShareRow(share: Share, decimal: real -> string) returns (row: seq<string>)
    ensures row == ShareRow(share, decimal)
  {
    var usedPercent := "0%";
    if share.size > 0 {
      usedPercent := decimal(share.used as real / share.size as real * 100.0) + "%";
    }
    var cache := "";
    if share.cache {
      cache := "✓";
    }
    var comment := share.comment;
    if |comment| > 30 {
      comment := comment[..27] + "...";
    }
    var total := BytesCell(share.size, decimal);
    var used := BytesCell(share.used, decimal);
    var free := BytesCell(share.free, decimal);
    row := [share.name, total, used, free, usedPercent, cache, comment];
  }

  /** The row loop of `shares ls`. */
  method ShareRows(shares: seq<Share>, decimal: real -> string) returns (rows: seq<seq<string>>)
    ensures |rows| == |shares|
    ensures forall i :: 0 <= i < |shares| ==> rows[i] == ShareRow(shares[i], decimal)
  {
    rows := [];
    for i := 0 to |shares|
      invariant RowsUpTo(rows, shares, decimal, i)
    {
      var row := BuildShareRow(shares[i], decimal);
      RowStep(rows, shares, decimal, i);
      rows := rows + [row];
    }
  }

  /** `rows` holds the rows of the first `n` shares. */
  predicate RowsUpTo(rows: seq<seq<string>>, shares: seq<Share>, decimal: real -> string, n: nat)
    requires n <= |shares|
  {
    |rows| == n && forall k :: 0 <= k < n ==> rows[k] == ShareRow(shares[k], decimal)
  }

  /** Appending the next share's row extends the prefix by one. */
  lemma RowStep(rows: seq<seq<string>>, shares: seq<Share>, decimal: real -> string, n: nat)
    requires n < |shares|
    requires RowsUpTo(rows, shares, decimal, n)
    ensures RowsUpTo(rows + [ShareRow(shares[n], decimal)], shares, decimal, n + 1)
  {
    var next := rows + [ShareRow(shares[n], decimal)];
    forall k | 0 <= k < n + 1
      ensures next[k] == ShareRow(shares[k], decimal)
    {
      if k < n {
        assert next[k] == rows[k];
      }
    }
  }

  const NoShares := "No shares found."

  /**
   * `shares ls`: the fetch error, the empty notice, or the listing (the
   * table in table mode, the shares themselves otherwise).
   */
  method ListShares(f: F.Formatter, fetched: Result<seq<Share>>, decimal: real -> string)
    returns (err: Option<string>)
    modifies f
    ensures fetched.Err? ==> err == Some("failed to get shares: " + fetched.msg) && f.output == old(f.output)
    ensures fetched.Ok? ==> err == None
    ensures fetched.Ok? && fetched.value == [] ==> f.output == old(f.output) + [F.Text(NoShares)]
    ensures fetched.Ok? && fetched.value != [] && f.format == F.TableFormat ==>
              f.output == old(f.output) +
                F.Lines(Table.Render(Headers, seq(|fetched.value|, i requires 0 <= i < |fetched.value| =>
                                                   ShareRow(fetched.value[i], decimal))))
    ensures fetched.Ok? && fetched.value != [] && f.format != F.TableFormat ==>
              f.output == old(f.output) + [F.Encoded(f.format, F.Shares(fetched.value))]
  {
    if fetched.Err? {
      return Some("failed to get shares: " + fetched.msg);
    }
    var shares := fetched.value;
    if shares == [] {
      f.output := f.output + [F.Text(NoShares)];
      return None;
    }
    if f.format == F.TableFormat {
      var rows := ShareRows(shares, decimal);
      assert rows == seq(|shares|, i requires 0 <= i < |shares| => ShareRow(shares[i], decimal));
      f.PrintTable(Headers, rows);
    } else {
      var ignored := f.Print(F.Shares(shares));
    }
    err := None;
  }

  /** The first share with exactly this name, as `shares info` looks it up. */
  function Lookup(shares: seq<Share>, name: string): (r: Result<Share>)
    ensures r.Ok? <==> exists i :: 0 <= i < |shares| && shares[i].name == name
    ensures r.Ok? ==> r.value.name == name && r.value in shares
    ensures r.Err? ==> r.msg == "share '" + name + "' not found"
  {
    match FirstIndex(shares, (s: Share) => s.name == name)
    case Some(i) => Ok(shares[i])
    case None => Err("share '" + name + "' not found")
  }

  /** The search loop of `shares info`, stopping at the first match. */
  method FindShare(shares: seq<Share>, name: string) returns (r: Result<Share>)
    ensures r == Lookup(shares, name)
  {
    var i := 0;
    while i < |shares|
      invariant 0 <= i <= |shares|
      invariant forall j :: 0 <= j < i ==> shares[j].name != name
    {
      if shares[i].name == name {
        break;
      }
      i := i + 1;
    }
    if i == |shares| {
      return Err("share '" + name + "' not found");
    }
    r := Ok(shares[i]);
  }

  /** Among shares with the same name, the first one is found. */
  lemma FirstNamesake(shares: seq<Share>, name: string, i: nat)
    requires i < |shares| && shares[i].name == name
    requires forall j :: 0 <= j < i ==> shares[j].name != name
    ensures Lookup(shares, name) == Ok(shares[i])
  {
  }
}
