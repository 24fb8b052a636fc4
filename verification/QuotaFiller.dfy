/** Filling a matter with generated reservations until exactly 1,024 bytes of its quota are left. */
module QuotaFiller {
  import opened UploadLedger
  import opened Wrappers

  const HEADROOM := 1024

  // ---- names ----------------------------------------------------------------------------------

  function Decimal(n: nat): (digits: string)
    ensures digits != "" && forall i :: 0 <= i < |digits| ==> '0' <= digits[i] <= '9'
  {
    var last := ['0' + (n % 10) as char];
    if n < 10 then last else Decimal(n / 10) + last
  }

  function Name(session: nat, item: nat): string { "Earlier/earlier-" + Decimal(session) + "-" + Decimal(item) + ".txt" }

  function Value(digits: string): nat
    requires forall i :: 0 <= i < |digits| ==> '0' <= digits[i] <= '9'
  {
    if digits == "" then 0
    else
      var last := digits[|digits| - 1];
      10 * Value(digits[..|digits| - 1]) + (last as int - '0' as int)
  }

  /** The digits read back as the number. */
  lemma {:induction false} DecimalReads(n: nat)
    ensures Value(Decimal(n)) == n
  {
    var digits := Decimal(n);
    assert digits[|digits| - 1] == '0' + (n % 10) as char;
    if n >= 10 {
      assert digits[..|digits| - 1] == Decimal(n / 10);
      DecimalReads(n / 10);
    } else {
      assert digits[..|digits| - 1] == "";
    }
  }

  lemma DecimalInjective(m: nat, n: nat)
    requires Decimal(m) == Decimal(n)
    ensures m == n
  {
    DecimalReads(m);
    DecimalReads(n);
  }

  /** A name reads back as its session and item. */
  lemma NameReads(session: nat, item: nat)
    ensures exists a: string, b: string ::
              && (forall i :: 0 <= i < |a| ==> '0' <= a[i] <= '9') && (forall i :: 0 <= i < |b| ==> '0' <= b[i] <= '9')
              && Value(a) == session && Value(b) == item
              && Name(session, item) == "Earlier/earlier-" + a + "-" + b + ".txt"
  {
    DecimalReads(session);
    DecimalReads(item);
    assert Name(session, item) == "Earlier/earlier-" + Decimal(session) + "-" + Decimal(item) + ".txt";
  }

  /** A separator that the first parts do not contain splits a string in one way. */
  lemma SplitOnce(a: string, b: string, c: string, d: string, separator: char)
    requires a + [separator] + b == c + [separator] + d && separator !in a && separator !in c
    ensures a == c && b == d
  {
    var s := a + [separator] + b;
    assert s[|a|] == separator && s[|c|] == separator;
    assert forall i :: 0 <= i < |a| ==> s[i] == a[i];
    assert forall i :: 0 <= i < |c| ==> s[i] == c[i];
    assert |a| == |c|;
    assert a == s[..|a|] && c == s[..|c|] && b == s[|a| + 1..] && d == s[|c| + 1..];
  }

  /** No two generated names are ever the same. */
  lemma NamesNeverRepeat(i: nat, j: nat, k: nat, m: nat)
    requires Name(i, j) == Name(k, m)
    ensures i == k && j == m
  {
    var p, q := Decimal(j) + ".txt", Decimal(m) + ".txt";
    var prefix := "Earlier/earlier-";
    assert Name(i, j)[|prefix|..] == Decimal(i) + "-" + p;
    assert Name(k, m)[|prefix|..] == Decimal(k) + "-" + q;
    SplitOnce(Decimal(i), p, Decimal(k), q, '-');
    DecimalInjective(i, k);
    assert p == Decimal(j) + ['.'] + "txt" && q == Decimal(m) + ['.'] + "txt";
    SplitOnce(Decimal(j), "txt", Decimal(m), "txt", '.');
    DecimalInjective(j, m);
  }

  // ---- one batch ------------------------------------------------------------------------------

  /** The files of a batch: named in order, none over the file limit, adding up to its size. */
  ghost predicate Batch(entries: seq<Entry>, session: nat, total: int, limit: int) {
    && Requested(entries) == total
    && forall j :: 0 <= j < |entries| ==> entries[j].path == Name(session, j) && entries[j].row.None? && entries[j].size <= limit
  }

  method FillBatch(session: nat, size: int, fileLimit: int) returns (batch: seq<Entry>)
    requires fileLimit > 0
    ensures Batch(batch, session, size, fileLimit)
    ensures size > 0 ==> forall j :: 0 <= j < |batch| ==> batch[j].size > 0
    ensures size < 0 ==> batch == [Entry(Name(session, 0), size, None)]
    ensures size != 0 ==> batch != []
    ensures forall j :: 0 <= j < |batch| - 1 ==> batch[j].size == fileLimit
  {
    batch := [];
    var left := size;
    while left != 0
      invariant Batch(batch, session, size - left, fileLimit)
      invariant size >= 0 ==> left >= 0 && forall j :: 0 <= j < |batch| ==> batch[j].size > 0
      invariant size < 0 ==> left == if batch == [] then size else 0
      invariant size < 0 && batch != [] ==> batch == [Entry(Name(session, 0), size, None)]
      invariant batch == [] ==> left == size
      invariant forall j :: 0 <= j < |batch| - 1 ==> batch[j].size == fileLimit
      invariant left > 0 && batch != [] ==> batch[|batch| - 1].size == fileLimit
      decreases if left < 0 then 1 else left
    {
      var next := if left < fileLimit then left else fileLimit;
      left := left - next;
      var entry := Entry(Name(session, |batch|), next, None);
      RequestedAppend(batch, [entry]);
      assert [entry][1..] == [];
      batch := batch + [entry];
    }
  }

  // ---- the whole matter -----------------------------------------------------------------------

  /** The one request of this script: no receipt rows, a collection of its own, and nobody else at work. */
  function Filling(batch: seq<Entry>): Request { Request(0, batch, None) }

  lemma BatchIsAnswered(l: Ledger, batch: seq<Entry>, session: nat, total: int, limit: int)
    requires Batch(batch, session, total, limit) && batch != []
    ensures Answer(l, Filling(batch), Projected(l))
              == if (forall j :: 0 <= j < |batch| ==> batch[j].size > 0) && Projected(l) + total <= l.quota
                 then Some(|l.sessions|) else None
  {
    forall i, j | 0 <= i < j < |batch| ensures batch[i].path != batch[j].path {
      if Name(session, i) == Name(session, j) { NamesNeverRepeat(session, i, session, j); }
    }
  }

  lemma BatchIsReserved(l: Ledger, batch: seq<Entry>, session: nat, total: int, limit: int)
    requires Batch(batch, session, total, limit) && batch != [] && Answer(l, Filling(batch), Projected(l)) == Some(|l.sessions|)
    ensures Used(Create(l, Filling(batch), Projected(l))) == Used(l)
    ensures PendingBytes(Create(l, Filling(batch), Projected(l))) == PendingBytes(l) + total
  {
    SumOfNew(batch);
    TotalAppend(l.sessions, Create(l, Filling(batch), Projected(l)).sessions[|l.sessions|], Disk);
    TotalAppend(l.sessions, Create(l, Filling(batch), Projected(l)).sessions[|l.sessions|], Reserved);
  }

  /** A request within both limits, named after its session, with real files if it is to be accepted. */
  ghost predicate Fits(batch: seq<Entry>, session: nat, sessionLimit: int, fileLimit: int, positive: bool) {
    && batch != [] && Requested(batch) <= sessionLimit
    && forall j :: 0 <= j < |batch| ==>
         && batch[j].path == Name(session, j) && batch[j].size <= fileLimit && (positive ==> batch[j].size > 0)
         && (j < |batch| - 1 ==> batch[j].size == fileLimit)
  }

  /**
    The nested loops. For positive limits they end; if the quota allows, every request is accepted
    and exactly 1,024 bytes stay free. With less quota than that, the one request made is refused.
   */
  method Fill(quota: nat, sessionLimit: int, fileLimit: int) returns (ledger: Ledger, batches: seq<seq<Entry>>, refused: bool)
    requires sessionLimit > 0 && fileLimit > 0
    ensures refused <==> quota < 1024
    ensures forall b :: 0 <= b < |batches| ==> Fits(batches[b], b, sessionLimit, fileLimit, !refused)
    ensures forall b :: 0 <= b < |batches| - 1 ==> Requested(batches[b]) == sessionLimit
    ensures refused ==> |batches| == 1
    ensures if refused then ledger == Start(quota, [])
            else |ledger.sessions| == |batches| && Used(ledger) == 0 && PendingBytes(ledger) + 1024 == quota
  {
    ledger, batches, refused := Start(quota, []), [], false;
    var remaining := quota - HEADROOM;
    while remaining != 0 && !refused
      invariant refused ==> quota < HEADROOM && ledger == Start(quota, [])
      invariant !refused && quota < HEADROOM ==> remaining == quota - HEADROOM && batches == []
      invariant !refused ==> ledger.quota == quota && |ledger.sessions| == |batches| && Used(ledger) == 0
      invariant !refused && quota < HEADROOM ==> ledger == Start(quota, [])
      invariant quota >= HEADROOM ==> !refused && remaining >= 0 && PendingBytes(ledger) + remaining + HEADROOM == quota
      invariant forall b :: 0 <= b < |batches| ==> Fits(batches[b], b, sessionLimit, fileLimit, quota >= HEADROOM)
      invariant refused ==> |batches| == 1
      invariant forall b :: 0 <= b < |batches| - 1 ==> Requested(batches[b]) == sessionLimit
      invariant remaining > 0 && batches != [] ==> Requested(batches[|batches| - 1]) == sessionLimit
      decreases if refused then 0 else 1, if remaining < 0 then 1 else remaining
    {
      var size := if remaining < sessionLimit then remaining else sessionLimit;
      var batch := FillBatch(|batches|, size, fileLimit);
      BatchIsAnswered(ledger, batch, |batches|, size, fileLimit);
      assert Fits(batch, |batches|, sessionLimit, fileLimit, quota >= HEADROOM);
      var answer := Answer(ledger, Filling(batch), Projected(ledger));
      if answer.None? {
        refused := true;
      } else {
        BatchIsReserved(ledger, batch, |batches|, size, fileLimit);
        ledger := Create(ledger, Filling(batch), Projected(ledger));
      }
      batches := batches + [batch];
      remaining := remaining - size;
    }
  }
}
