/**
 Verification of the stored log (reclaim/spine/verify.py): reading damaged rows,
 classifying the damage, and the optional pinned head.
 */
module ChainVerifier {
  import opened Wrappers
  import opened AuditChain

  /** What the `data` column of a row holds. A document carries the row's fields and
      the hash it claims; the fields alone may still break the row model. */
  datatype Blob =
    | NotJson
    | NotAnObject
    | MalformedFields
    | Document(row: AuditRow, claimed: Option<Hash>)

  /** One database row: the columns read with plain SQL, and the document. */
  datatype StoredRow = StoredRow(sequenceColumn: int, prevHashColumn: Hash, rowHashColumn: Hash, blob: Blob)

  datatype FailureKind =
    | NoFault | EmptyChain | ChainUnreadable | RowUnreadable | RowTampered
    | SequenceGap | BrokenLink | ColumnMismatch | HeadMismatch

  datatype ChainReport = ChainReport(
    kind: FailureKind,
    contractIsValid: bool,
    rowsChecked: nat,
    firstBadSequence: Option<int>,
    headHash: Option<Hash>)
  {
    predicate Verified() {
      kind == NoFault
    }

    function ExitCode(): nat {
      if kind == NoFault then 0 else if kind == EmptyChain then 2 else 1
    }
  }

  predicate Parses(h: RowHash, digest: ScopeDigest, b: Blob) {
    b.Document? && RowValid(digest, b.row) && (b.claimed.Some? ==> b.claimed.value == h(b.row))
  }

  /** The row is well formed and only its claimed hash disagrees. */
  predicate ParsesWithoutItsClaim(digest: ScopeDigest, b: Blob) {
    b.Document? && RowValid(digest, b.row)
  }

  predicate AllParse(h: RowHash, digest: ScopeDigest, table: seq<StoredRow>) {
    forall i :: 0 <= i < |table| ==> Parses(h, digest, table[i].blob)
  }

  function Decode(h: RowHash, digest: ScopeDigest, table: seq<StoredRow>): (rows: seq<AuditRow>)
    requires AllParse(h, digest, table)
    ensures |rows| == |table|
    ensures forall i :: 0 <= i < |rows| ==> rows[i] == table[i].blob.row
  {
    seq(|table|, i requires 0 <= i < |table| => assert Parses(h, digest, table[i].blob); table[i].blob.row)
  }

  predicate Mirrors(h: RowHash, s: StoredRow, r: AuditRow) {
    s.sequenceColumn == r.sequence && s.prevHashColumn == r.prevHash && s.rowHashColumn == h(r)
  }

  predicate Contiguous(rows: seq<AuditRow>) {
    forall i :: 0 <= i < |rows| ==> rows[i].sequence == i
  }

  // ------------------------------------------------------------ the verifier

  method AttributeReadFailure(h: RowHash, digest: ScopeDigest, table: seq<StoredRow>) returns (r: ChainReport)
    ensures AllParse(h, digest, table) ==> r == ChainReport(ChainUnreadable, false, |table|, None, None)
    ensures !AllParse(h, digest, table) ==>
              && r.rowsChecked < |table| && !r.contractIsValid && r.headHash.None?
              && (forall i :: 0 <= i < r.rowsChecked ==> Parses(h, digest, table[i].blob))
              && !Parses(h, digest, table[r.rowsChecked].blob)
              && r.firstBadSequence == Some(table[r.rowsChecked].sequenceColumn)
              && r.kind == if ParsesWithoutItsClaim(digest, table[r.rowsChecked].blob) then RowTampered else RowUnreadable
  {
    var parsed := 0;
    while parsed < |table|
      invariant 0 <= parsed <= |table|
      invariant forall i :: 0 <= i < parsed ==> Parses(h, digest, table[i].blob)
    {
      var stored := table[parsed];
      if !stored.blob.Document? {
        return ChainReport(RowUnreadable, false, parsed, Some(stored.sequenceColumn), None);
      }
      if !Parses(h, digest, stored.blob) {
        if !ParsesWithoutItsClaim(digest, stored.blob) {
          return ChainReport(RowUnreadable, false, parsed, Some(stored.sequenceColumn), None);
        }
        return ChainReport(RowTampered, false, parsed, Some(stored.sequenceColumn), None);
      }
      parsed := parsed + 1;
    }
    return ChainReport(ChainUnreadable, false, parsed, None, None);
  }

  method FirstColumnDivergence(h: RowHash, table: seq<StoredRow>, rows: seq<AuditRow>) returns (k: Option<nat>)
    requires |table| == |rows|
    ensures k.None? <==> forall i :: 0 <= i < |rows| ==> Mirrors(h, table[i], rows[i])
    ensures k.Some? ==> k.value < |rows| && !Mirrors(h, table[k.value], rows[k.value])
                        && forall i :: 0 <= i < k.value ==> Mirrors(h, table[i], rows[i])
  {
    var i := 0;
    while i < |rows|
      invariant 0 <= i <= |rows|
      invariant forall j :: 0 <= j < i ==> Mirrors(h, table[j], rows[j])
    {
      if (table[i].sequenceColumn, table[i].prevHashColumn, table[i].rowHashColumn)
         != (rows[i].sequence, rows[i].prevHash, h(rows[i])) {
        return Some(i);
      }
      i := i + 1;
    }
    return None;
  }

  /** What a report must say about a table (`None`: the table itself cannot be read). */
  ghost predicate Reports(h: RowHash, digest: ScopeDigest, table: Option<seq<StoredRow>>, pin: Option<Hash>, r: ChainReport) {
    match table
    case None => r == ChainReport(ChainUnreadable, false, 0, None, None)
    case Some(t) =>
      if !AllParse(h, digest, t) then
        && r.rowsChecked < |t| && !r.contractIsValid && r.headHash.None?
        && (forall i :: 0 <= i < r.rowsChecked ==> Parses(h, digest, t[i].blob))
        && !Parses(h, digest, t[r.rowsChecked].blob)
        && r.firstBadSequence == Some(t[r.rowsChecked].sequenceColumn)
        && r.kind == if ParsesWithoutItsClaim(digest, t[r.rowsChecked].blob) then RowTampered else RowUnreadable
      else
        var rows := Decode(h, digest, t);
        if t == [] then r == ChainReport(EmptyChain, true, 0, None, None)
        else if !ValidChain(h, rows) then
          && r.rowsChecked < |rows| && !r.contractIsValid && r.headHash.None?
          && (forall i :: 0 <= i < r.rowsChecked ==> LinkOk(h, rows, i))
          && !LinkOk(h, rows, r.rowsChecked)
          && r.firstBadSequence == Some(rows[r.rowsChecked].sequence)
          && r.kind == if Contiguous(rows) then BrokenLink else SequenceGap
        else if pin.Some? && pin.value != Head(h, rows) then
          r == ChainReport(HeadMismatch, false, |rows|, Some(rows[|rows| - 1].sequence), None)
        else if exists i :: 0 <= i < |rows| && !Mirrors(h, t[i], rows[i]) then
          && r.kind == ColumnMismatch && r.rowsChecked == |rows| && !r.contractIsValid && r.headHash.None?
          && exists i :: 0 <= i < |rows| && !Mirrors(h, t[i], rows[i])
               && r.firstBadSequence == Some(t[i].sequenceColumn)
               && forall j :: 0 <= j < i ==> Mirrors(h, t[j], rows[j])
        else r == ChainReport(NoFault, true, |rows|, None, Some(Head(h, rows)))
  }

  method VerifyDatabaseChain(h: RowHash, digest: ScopeDigest, table: Option<seq<StoredRow>>, pin: Option<Hash>)
    returns (r: ChainReport)
    ensures Reports(h, digest, table, pin, r)
  {
    if table.None? {
      return ChainReport(ChainUnreadable, false, 0, None, None);
    }
    var t := table.value;
    if !AllParse(h, digest, t) {
      r := AttributeReadFailure(h, digest, t);
      return;
    }
    var rows := Decode(h, digest, t);
    if rows == [] {
      return ChainReport(EmptyChain, true, 0, None, None);
    }
    var verdict := VerifyChain(h, rows);
    if !verdict.isValid {
      var kind := if Contiguous(rows) then BrokenLink else SequenceGap;
      return ChainReport(kind, false, verdict.rowsChecked, verdict.firstBadSequence, None);
    }
    if pin.Some? && verdict.headHash != pin {
      return ChainReport(HeadMismatch, false, verdict.rowsChecked, Some(rows[|rows| - 1].sequence), None);
    }
    var diverged := FirstColumnDivergence(h, t, rows);
    if diverged.Some? {
      return ChainReport(ColumnMismatch, false, verdict.rowsChecked, Some(t[diverged.value].sequenceColumn), None);
    }
    return ChainReport(NoFault, true, verdict.rowsChecked, None, verdict.headHash);
  }

  // ------------------------------------------------------------ what the verdict proves

  /** How an honest writer stores a row. */
  function Store(h: RowHash, r: AuditRow): StoredRow {
    StoredRow(r.sequence, r.prevHash, h(r), Document(r, Some(h(r))))
  }

  function StoreAll(h: RowHash, rows: seq<AuditRow>): (t: seq<StoredRow>)
    ensures |t| == |rows|
    ensures forall i :: 0 <= i < |rows| ==> t[i] == Store(h, rows[i])
  {
    seq(|rows|, i requires 0 <= i < |rows| => Store(h, rows[i]))
  }

  /** A log the row model accepts and whose chain holds. */
  predicate HonestLog(h: RowHash, digest: ScopeDigest, rows: seq<AuditRow>) {
    rows != [] && ValidChain(h, rows) && forall i :: 0 <= i < |rows| ==> RowValid(digest, rows[i])
  }

  /** The verdict is NoFault exactly for a non-empty table whose rows all parse, link,
      mirror their columns and end at the pinned head. */
  lemma VerifiedExactly(h: RowHash, digest: ScopeDigest, t: seq<StoredRow>, pin: Option<Hash>, r: ChainReport)
    requires Reports(h, digest, Some(t), pin, r)
    ensures r.Verified() <==>
              && t != [] && AllParse(h, digest, t)
              && ValidChain(h, Decode(h, digest, t))
              && (pin.Some? ==> pin.value == Head(h, Decode(h, digest, t)))
              && forall i :: 0 <= i < |t| ==> Mirrors(h, t[i], Decode(h, digest, t)[i])
    ensures r.ExitCode() == (if r.Verified() then 0 else if t == [] then 2 else 1)
  {
  }

  /** A row is read when its document is a row the model accepts and any hash it claims is
      its own; the columns mirror it when all three say what it says. */
  lemma ReadExactly(h: RowHash, digest: ScopeDigest, s: StoredRow)
    ensures Parses(h, digest, s.blob) <==>
              match s.blob {
                case Document(row, claimed) => RowValid(digest, row) && (claimed == None || claimed == Some(h(row)))
                case _ => false
              }
    ensures ParsesWithoutItsClaim(digest, s.blob) <==>
              match s.blob { case Document(row, _) => RowValid(digest, row) case _ => false }
    ensures s.blob.Document? ==>
              (Mirrors(h, s, s.blob.row) <==>
                 s == StoredRow(s.blob.row.sequence, s.blob.row.prevHash, h(s.blob.row), s.blob))
  {
  }

  /** What was appended verifies, also against its own head. */
  lemma HonestLogVerifies(h: RowHash, digest: ScopeDigest, rows: seq<AuditRow>, pin: Option<Hash>, r: ChainReport)
    requires HonestLog(h, digest, rows)
    requires pin.None? || pin.value == Head(h, rows)
    requires Reports(h, digest, Some(StoreAll(h, rows)), pin, r)
    ensures r.Verified() && r.ExitCode() == 0
  {
    var t := StoreAll(h, rows);
    assert AllParse(h, digest, t);
    assert Decode(h, digest, t) == rows;
  }

  /** A pinned head catches every tampering: any table that verifies against the head of
      an honest log holds exactly that log, or exhibits two rows with one hash. */
  lemma PinnedHeadCatchesEverything(h: RowHash, digest: ScopeDigest, rows: seq<AuditRow>, t: seq<StoredRow>, r: ChainReport)
    requires HonestLog(h, digest, rows)
    requires Reports(h, digest, Some(t), Some(Head(h, rows)), r) && r.Verified()
    ensures AllParse(h, digest, t) && t != []
    ensures Decode(h, digest, t) == rows
         || IsCollision(h, LastDifference(Decode(h, digest, t), rows).0, LastDifference(Decode(h, digest, t), rows).1)
  {
    SameHeadSameLog(h, Decode(h, digest, t), rows);
  }

  /** Editing one stored row but keeping the hash it claims is pinned on that row. */
  lemma EditedRowIsNamed(h: RowHash, digest: ScopeDigest, rows: seq<AuditRow>, k: nat, forged: AuditRow,
                         pin: Option<Hash>, r: ChainReport)
    requires HonestLog(h, digest, rows) && k < |rows| && forged != rows[k]
    requires Reports(h, digest, Some(StoreAll(h, rows)[k := StoreAll(h, rows)[k].(blob := Document(forged, Some(h(rows[k]))))]),
                     pin, r)
    ensures IsCollision(h, forged, rows[k])
         || (r.kind == (if RowValid(digest, forged) then RowTampered else RowUnreadable)
             && r.firstBadSequence == Some(k) && r.rowsChecked == k)
  {
    var t := StoreAll(h, rows)[k := StoreAll(h, rows)[k].(blob := Document(forged, Some(h(rows[k]))))];
    assert LinkOk(h, rows, k);
    assert forall i :: 0 <= i < |rows| && i != k ==> Parses(h, digest, t[i].blob);
    if h(forged) != h(rows[k]) {
      assert !Parses(h, digest, t[k].blob);
    }
  }

  /** Re-hashing an edited row in place moves the break to its successor. */
  lemma RehashedRowBreaksTheNextLink(h: RowHash, digest: ScopeDigest, rows: seq<AuditRow>, k: nat, body: Body,
                                     pin: Option<Hash>, r: ChainReport)
    requires HonestLog(h, digest, rows) && k + 1 < |rows|
    requires body != rows[k].body && BodyValid(digest, body)
    requires Reports(h, digest, Some(StoreAll(h, rows[k := rows[k].(body := body)])), pin, r)
    ensures IsCollision(h, rows[k].(body := body), rows[k])
         || (r.kind == BrokenLink && r.firstBadSequence == Some(k + 1) && r.rowsChecked == k + 1)
  {
    var forged := rows[k].(body := body);
    var t := StoreAll(h, rows[k := forged]);
    assert RowValid(digest, rows[k]);
    assert AllParse(h, digest, t);
    var read := Decode(h, digest, t);
    assert read == rows[k := forged];
    forall i | 0 <= i <= k ensures LinkOk(h, read, i) {
      assert LinkOk(h, rows, i);
    }
    assert LinkOk(h, rows, k + 1);
    assert Contiguous(read) by {
      forall i | 0 <= i < |read| ensures read[i].sequence == i { assert LinkOk(h, rows, i); }
    }
    if h(forged) != h(rows[k]) {
      assert !LinkOk(h, read, k + 1);
    }
  }

  /** Deleting any row but the last leaves a gap, reported at the row after it. */
  lemma DeletedRowLeavesAGap(h: RowHash, digest: ScopeDigest, rows: seq<AuditRow>, k: nat, pin: Option<Hash>, r: ChainReport)
    requires HonestLog(h, digest, rows) && k + 1 < |rows|
    requires Reports(h, digest, Some(StoreAll(h, rows[..k] + rows[k + 1..])), pin, r)
    ensures r.kind == SequenceGap && r.firstBadSequence == Some(k + 1) && r.rowsChecked == k
  {
    var kept := rows[..k] + rows[k + 1..];
    var t := StoreAll(h, kept);
    assert AllParse(h, digest, t);
    assert Decode(h, digest, t) == kept;
    forall i | 0 <= i < k ensures LinkOk(h, kept, i) {
      assert LinkOk(h, rows, i);
    }
    assert LinkOk(h, rows, k + 1);
    assert kept[k] == rows[k + 1];
    assert !LinkOk(h, kept, k);
  }

  /** Cutting the tail is invisible without a pin and caught with one. */
  lemma CutTailNeedsThePin(h: RowHash, digest: ScopeDigest, rows: seq<AuditRow>, n: nat,
                           unpinned: ChainReport, pinned: ChainReport)
    requires HonestLog(h, digest, rows) && 0 < n < |rows|
    requires Reports(h, digest, Some(StoreAll(h, rows[..n])), None, unpinned)
    requires Reports(h, digest, Some(StoreAll(h, rows[..n])), Some(Head(h, rows)), pinned)
    ensures unpinned.Verified()
    ensures IsCollision(h, rows[n - 1], rows[|rows| - 1])
         || (pinned.kind == HeadMismatch && pinned.firstBadSequence == Some(n - 1))
  {
    PrefixIsAChain(h, rows, n);
    HonestLogVerifies(h, digest, rows[..n], None, unpinned);
    var t := StoreAll(h, rows[..n]);
    assert AllParse(h, digest, t);
    assert Decode(h, digest, t) == rows[..n];
    assert LinkOk(h, rows, n - 1) && LinkOk(h, rows, |rows| - 1);
  }
}
