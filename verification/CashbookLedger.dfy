/** The immutable ledger on values: what recording, rebooking and unbooking an income or an expense
    do to the cashbook, and the invariant every such step keeps. */
module CashbookLedger {
  import opened Basics
  import opened Schema
  import opened CashbookTriggers

  // ----- the steps

  function NewRow(before: Balances, date: int, direction: Direction, parts: Amounts, owner: Owner,
                  reversalOf: Option<nat>): Row
  {
    Row(date, direction, parts, before, before.Plus(Signed(direction, parts)), Some(owner),
        reversalOf.Some?, reversalOf, false)
  }

  /** The first cashbook row of an income or expense. */
  function Record(b: Books, o: Owner, parts: Amounts, date: int): Result<Books> {
    InsertRow(b, NewRow(b.balances, date, o.Natural(), parts, o, None))
  }

  /** The newest visible row linked to `o`. */
  function FindLatestActive(rows: seq<Row>, o: Owner): (r: Option<nat>)
    ensures r.Some? ==> r.value < |rows| && rows[r.value].ActiveEntryOf(o)
    ensures r.Some? ==> forall i :: r.value < i < |rows| ==> !rows[i].ActiveEntryOf(o)
    ensures r.None? ==> forall i :: 0 <= i < |rows| ==> !rows[i].ActiveEntryOf(o)
  {
    LatestActiveBefore(rows, o, |rows|)
  }

  function LatestActiveBefore(rows: seq<Row>, o: Owner, n: nat): (r: Option<nat>)
    requires n <= |rows|
    ensures r.Some? ==> r.value < n && rows[r.value].ActiveEntryOf(o)
    ensures r.Some? ==> forall i :: r.value < i < n ==> !rows[i].ActiveEntryOf(o)
    ensures r.None? ==> forall i :: 0 <= i < n ==> !rows[i].ActiveEntryOf(o)
  {
    if n == 0 then None
    else if rows[n - 1].ActiveEntryOf(o) then Some(n - 1)
    else LatestActiveBefore(rows, o, n - 1)
  }

  function SoftDelete(rows: seq<Row>, k: nat): seq<Row>
    requires k < |rows|
  {
    rows[k := rows[k].(deleted := true)]
  }

  function Reversal(before: Balances, o: Owner, k: nat, original: Row): Row {
    NewRow(before, original.txnDate, o.Natural().Opposite(), original.parts, o, Some(k))
  }

  function Replacement(reversal: Row, o: Owner, parts: Amounts, date: int): Row {
    NewRow(reversal.after, date, o.Natural(), parts, o, None)
  }

  function DateOr(date: Option<int>, other: int): int {
    if date.Some? then date.value else other
  }

  /** An update: hide the original, reverse it, and enter the new amounts. */
  function Rebook(b: Books, o: Owner, parts: Amounts, date: Option<int>): Result<Books> {
    match FindLatestActive(b.rows, o)
    case None => Failure(MissingCashbookRow)
    case Some(k) =>
      var original := b.rows[k];
      var reversal := Reversal(b.balances, o, k, original);
      var reversed :- InsertRow(b.(rows := SoftDelete(b.rows, k)), reversal);
      InsertRow(reversed, Replacement(reversal, o, parts, DateOr(date, original.txnDate)))
  }

  function NetOf(o: Owner): Row -> Amounts {
    (r: Row) => if r.owner == Some(o) then r.Effect() else ZERO
  }

  /** Row by row: hidden by the service, unlinked by the foreign key, or both. */
  function HiddenRow(r: Row, o: Owner): Row { if r.owner == Some(o) then r.(deleted := true) else r }

  function UnlinkedRow(r: Row, o: Owner): Row { if r.owner == Some(o) then r.(owner := None) else r }

  function WithoutOwner(rows: seq<Row>, o: Owner): seq<Row> {
    seq(|rows|, i requires 0 <= i < |rows| => UnlinkedRow(HiddenRow(rows[i], o), o))
  }

  /** A deletion: give back the net of every linked row, hide the rows, and let the foreign key unlink them. */
  ghost function Unbook(b: Books, o: Owner): Result<Books> {
    var after :- TakeBack(b.balances, SumAmounts(b.rows, NetOf(o)));
    Success(b.(balances := after, rows := WithoutOwner(b.rows, o)))
  }

  /** Every balance the net amount touches must stay above zero. */
  function TakeBack(b: Balances, net: Amounts): Result<Balances> {
    var shu := b.shu - net.shu;
    var capital := b.capital - net.capital;
    var total := b.total - (net.shu + net.capital);
    if (net.shu != 0 && shu < 0) || (net.capital != 0 && capital < 0) || (net.shu + net.capital != 0 && total < 0)
    then Failure(NegativeBalance)
    else Success(Balances(shu, capital, total))
  }

  // ----- the invariant

  /** The amounts a live income or expense currently has. */
  function Current(b: Books, o: Owner): Option<Amounts> {
    match o
    case IncomeOwner(i) =>
      if i < |b.incomes| && b.incomes[i].Some? then Some(b.incomes[i].value.Parts()) else None
    case ExpenseOwner(e) =>
      if e < |b.expenses| && b.expenses[e].Some? then Some(b.expenses[e].value.parts) else None
  }

  ghost predicate SoleEntry(rows: seq<Row>, o: Owner, k: nat) {
    && k < |rows|
    && rows[k].ActiveEntryOf(o)
    && forall i :: 0 <= i < |rows| && rows[i].ActiveEntryOf(o) ==> i == k
  }

  /** `o` has exactly one active row; it carries `parts`, and all rows of `o` net to it. */
  ghost predicate Booked(rows: seq<Row>, o: Owner, parts: Amounts) {
    var k := FindLatestActive(rows, o);
    && k.Some?
    && SoleEntry(rows, o, k.value)
    && rows[k.value].parts == parts
    && rows[k.value].direction == o.Natural()
    && SumAmounts(rows, NetOf(o)) == Signed(o.Natural(), parts)
  }

  ghost predicate RowSound(b: Books, r: Row) {
    && r.parts.NonNegative()
    && r.parts.Positive()
    && (r.owner.None? ==> r.deleted)
    && (r.owner.Some? ==> Current(b, r.owner.value).Some?)
  }

  /** Row `j` reverses row `i`: same amounts, opposite direction, same link, and the original is hidden. */
  ghost predicate Reverses(rows: seq<Row>, j: nat, i: nat)
    requires j < |rows|
  {
    && rows[j].isReversal
    && rows[j].reversalOf == Some(i)
    && i < j
    && rows[i].deleted
    && !rows[i].isReversal
    && rows[j].parts == rows[i].parts
    && rows[j].direction == rows[i].direction.Opposite()
    && rows[j].owner == rows[i].owner
  }

  ghost predicate HasReversal(rows: seq<Row>, i: nat) {
    exists j :: 0 <= j < |rows| && Reverses(rows, j, i)
  }

  /** Reversals and hidden originals of live documents pair off one to one. */
  ghost predicate Paired(rows: seq<Row>) {
    && (forall j :: 0 <= j < |rows| && rows[j].isReversal ==>
          rows[j].reversalOf.Some? && Reverses(rows, j, rows[j].reversalOf.value))
    && (forall i, j | 0 <= i < |rows| && 0 <= j < |rows| && rows[i].isReversal && rows[j].isReversal ::
          rows[i].reversalOf == rows[j].reversalOf ==> i == j)
    && (forall i :: 0 <= i < |rows| && rows[i].deleted && !rows[i].isReversal && rows[i].owner.Some? ==>
          HasReversal(rows, i))
  }

  function LinkedPart(r: Row): Amounts { if r.owner.Some? then r.Effect() else ZERO }

  function VisiblePart(r: Row): Amounts { if r.Visible() then r.Effect() else ZERO }

  /** Each balance is its opening value plus the signed linked rows, and plus the signed visible rows. */
  ghost predicate Agrees(b: Books) {
    && b.balances == OPENING.Plus(SumAmounts(b.rows, LinkedPart))
    && b.balances == OPENING.Plus(SumAmounts(b.rows, VisiblePart))
  }

  ghost predicate AllSound(b: Books) {
    forall i :: 0 <= i < |b.rows| ==> RowSound(b, b.rows[i])
  }

  ghost predicate AllBooked(b: Books) {
    forall o :: Current(b, o).Some? ==> Booked(b.rows, o, Current(b, o).value)
  }

  ghost predicate LedgerInv(b: Books) {
    && b.balances.Consistent()
    && AllSound(b)
    && AllBooked(b)
    && Paired(b.rows)
    && Agrees(b)
  }

  // ----- other owners are not disturbed

  ghost predicate TouchesOnly(was: seq<Row>, now: seq<Row>, o: Owner) {
    && |was| <= |now|
    && (forall i | 0 <= i < |was| ::
          || now[i] == was[i]
          || (was[i].owner == Some(o) && (now[i].owner == Some(o) || now[i].owner == None)))
    && (forall i | |was| <= i < |now| :: now[i].owner == Some(o))
  }

  lemma OtherOwnersStayBooked(was: seq<Row>, now: seq<Row>, o: Owner, other: Owner, parts: Amounts)
    requires TouchesOnly(was, now, o) && other != o
    requires Booked(was, other, parts)
    ensures Booked(now, other, parts)
  {
    var k := FindLatestActive(was, other).value;
    assert SoleEntry(now, other, k);
    var head, tail := now[..|was|], now[|was|..];
    assert now == head + tail;
    SumAmountsSame(head, was, NetOf(other), NetOf(other));
    SumAmountsAllZero(tail, NetOf(other));
    SumConcat(head, tail, ShuOf(NetOf(other)));
    SumConcat(head, tail, CapitalOf(NetOf(other)));
  }

  lemma AllStayBooked(was: Books, now: Books, o: Owner)
    requires AllBooked(was) && TouchesOnly(was.rows, now.rows, o)
    requires forall other :: other != o ==> Current(now, other) == Current(was, other)
    requires Current(now, o).Some? ==> Booked(now.rows, o, Current(now, o).value)
    ensures AllBooked(now)
  {
    forall other | other != o && Current(now, other).Some?
      ensures Booked(now.rows, other, Current(now, other).value)
    {
      OtherOwnersStayBooked(was.rows, now.rows, o, other, Current(now, other).value);
    }
  }

  /** `now` has the cashbook of `was` and the same incomes and expenses except possibly `o`. */
  ghost predicate SameBut(was: Books, now: Books, o: Owner) {
    && now.balances == was.balances
    && now.rows == was.rows
    && forall other :: other != o ==> Current(now, other) == Current(was, other)
  }

  // ----- recording

  lemma NothingLinked(b: Books, o: Owner)
    requires LedgerInv(b) && Current(b, o).None?
    ensures forall i :: 0 <= i < |b.rows| ==> b.rows[i].owner != Some(o)
  {
  }

  /** `now` has the rows of `was` and more, each an entry of that date. */
  ghost predicate AddsDated(was: Books, now: Books, date: int) {
    && was.rows <= now.rows
    && forall i :: |was.rows| <= i < |now.rows| ==> now.rows[i].txnDate == date && now.rows[i].Visible()
  }

  /** The row a first entry writes, and no other: dated as given, with the given amounts, into the balances for an
      income and out of them for an expense, standing on the balances found. */
  lemma RecordWritesRow(b: Books, o: Owner, parts: Amounts, date: int)
    requires Record(b, o, parts, date).Success?
    ensures var rows, n := Record(b, o, parts, date).value.rows, |b.rows|;
            && |rows| == n + 1 && b.rows == rows[..n]
            && rows[n].txnDate == date && rows[n].parts == parts && rows[n].owner == Some(o)
            && rows[n].direction == (if o.IncomeOwner? then In else Out)
            && rows[n].before == b.balances
            && !rows[n].isReversal && rows[n].reversalOf.None? && !rows[n].deleted
    ensures AddsDated(b, Record(b, o, parts, date).value, date)
  {
  }

  lemma RecordKeepsInvariant(was: Books, b: Books, o: Owner, parts: Amounts, date: int)
    requires LedgerInv(was) && Current(was, o).None?
    requires SameBut(was, b, o) && Current(b, o) == Some(parts)
    requires parts.NonNegative()
    requires Record(b, o, parts, date).Success?
    ensures LedgerInv(Record(b, o, parts, date).value)
    ensures Record(b, o, parts, date).value.balances == was.balances.Plus(Signed(o.Natural(), parts))
  {
    var row := NewRow(b.balances, date, o.Natural(), parts, o, None);
    var now := Record(b, o, parts, date).value;
    SoundRowIsExact(b.balances, row);
    assert Current(now, o) == Current(b, o);
    assert forall other :: other != o ==> Current(now, other) == Current(was, other);
    RecordedRows(was, now, o, row);
  }

  lemma RecordedRows(was: Books, now: Books, o: Owner, row: Row)
    requires LedgerInv(was) && Current(was, o).None?
    requires now.rows == was.rows + [row] && now.balances == was.balances.Plus(row.Effect())
    requires forall other :: other != o ==> Current(now, other) == Current(was, other)
    requires Current(now, o) == Some(row.parts)
    requires row.ActiveEntryOf(o) && row.direction == o.Natural()
    requires row.parts.NonNegative() && row.parts.Positive()
    ensures AllSound(now) && AllBooked(now) && Paired(now.rows) && Agrees(now)
  {
    assert AllBooked(now) by {
      NothingLinked(was, o);
      RecordedOwner(was.rows, o, row);
      AllStayBooked(was, now, o);
    }
    assert AllSound(now) by {
      RowsStaySound(was, now, o, |was.rows|);
    }
    assert Agrees(now) by {
      SumAmountsAppend(was.rows, row, LinkedPart);
      SumAmountsAppend(was.rows, row, VisiblePart);
    }
    AppendKeepsPairing(was.rows, row);
  }

  lemma RecordedOwner(rows: seq<Row>, o: Owner, row: Row)
    requires forall i :: 0 <= i < |rows| ==> rows[i].owner != Some(o)
    requires row.ActiveEntryOf(o) && row.direction == o.Natural()
    ensures Booked(rows + [row], o, row.parts)
  {
    assert SoleEntry(rows + [row], o, |rows|);
    SumAmountsAllZero(rows, NetOf(o));
    SumAmountsAppend(rows, row, NetOf(o));
  }

  lemma RowsStaySound(was: Books, now: Books, o: Owner, n: nat)
    requires n <= |was.rows| && n <= |now.rows|
    requires forall i :: 0 <= i < |was.rows| ==> RowSound(was, was.rows[i])
    requires forall i :: 0 <= i < n ==> now.rows[i].parts == was.rows[i].parts
    requires forall i :: 0 <= i < n ==> now.rows[i].owner == was.rows[i].owner || now.rows[i].owner.None?
    requires forall i :: 0 <= i < n && now.rows[i].owner.None? ==> now.rows[i].deleted
    requires forall other :: other != o ==> Current(now, other) == Current(was, other)
    requires (exists i :: 0 <= i < n && now.rows[i].owner == Some(o)) ==> Current(now, o).Some?
    ensures forall i :: 0 <= i < n ==> RowSound(now, now.rows[i])
  {
  }

  lemma AppendKeepsPairing(rows: seq<Row>, row: Row)
    requires Paired(rows) && !row.isReversal && !row.deleted
    ensures Paired(rows + [row])
  {
    var now := rows + [row];
    forall i | 0 <= i < |now| && now[i].deleted && !now[i].isReversal && now[i].owner.Some?
      ensures HasReversal(now, i)
    {
      assert HasReversal(rows, i);
      var j :| 0 <= j < |rows| && Reverses(rows, j, i);
      assert Reverses(now, j, i);
    }
    forall j | 0 <= j < |now| && now[j].isReversal
      ensures now[j].reversalOf.Some? && Reverses(now, j, now[j].reversalOf.value)
    {
      assert Reverses(rows, j, rows[j].reversalOf.value);
    }
  }

  // ----- rebooking

  /** When the update goes through, and what it leaves in the balances. */
  lemma RebookOutcome(b: Books, o: Owner, parts: Amounts, date: Option<int>)
    requires LedgerInv(b) && Current(b, o).Some? && parts.NonNegative()
    ensures var old_ := Current(b, o).value;
            var between := b.balances.Plus(Signed(o.Natural().Opposite(), old_));
            && (Rebook(b, o, parts, date).Success? <==>
                  && parts.Positive()
                  && between.NonNegative()
                  && between.Plus(Signed(o.Natural(), parts)).NonNegative())
            && (Rebook(b, o, parts, date).Success? ==>
                  Rebook(b, o, parts, date).value.balances == between.Plus(Signed(o.Natural(), parts)))
  {
    var k := FindLatestActive(b.rows, o).value;
    assert Booked(b.rows, o, Current(b, o).value);
    assert RowSound(b, b.rows[k]);
    var reversal := Reversal(b.balances, o, k, b.rows[k]);
    SoundRowIsExact(b.balances, reversal);
    if InsertTrigger(b.balances, reversal).Success? {
      SoundRowIsExact(InsertTrigger(b.balances, reversal).value,
                           Replacement(reversal, o, parts, DateOr(date, b.rows[k].txnDate)));
    }
  }

  /** The pair an update writes: a reversal that keeps the original's date and amounts, then an entry at the
      new amounts, dated anew only if a date was given. Older rows keep everything but the one flag. */
  lemma RebookWritesPair(b: Books, o: Owner, parts: Amounts, date: Option<int>)
    requires Rebook(b, o, parts, date).Success?
    ensures var k := FindLatestActive(b.rows, o);
            var rows, n := Rebook(b, o, parts, date).value.rows, |b.rows|;
            && k.Some? && |rows| == n + 2
            && rows[n].txnDate == b.rows[k.value].txnDate && rows[n].parts == b.rows[k.value].parts
            && rows[n].isReversal && rows[n].reversalOf == k
            && rows[n + 1].txnDate == (if date.Some? then date.value else b.rows[k.value].txnDate)
            && rows[n + 1].parts == parts && !rows[n + 1].isReversal && rows[n + 1].reversalOf.None?
            && rows[n].after == rows[n + 1].before
            && rows[n].owner == Some(o) == rows[n + 1].owner
            && !rows[n].deleted && !rows[n + 1].deleted
            && forall i :: 0 <= i < n ==> rows[i] == b.rows[i].(deleted := b.rows[i].deleted || i == k.value)
  {
  }

  lemma RebookKeepsInvariant(was: Books, b: Books, o: Owner, parts: Amounts, date: Option<int>)
    requires LedgerInv(was) && Current(was, o).Some?
    requires SameBut(was, b, o) && Current(b, o) == Some(parts)
    requires parts.NonNegative()
    requires Rebook(b, o, parts, date).Success?
    ensures LedgerInv(Rebook(b, o, parts, date).value)
    ensures Rebook(b, o, parts, date).value.balances ==
            was.balances.Plus(Signed(o.Natural().Opposite(), Current(was, o).value)).Plus(Signed(o.Natural(), parts))
  {
    assert Booked(was.rows, o, Current(was, o).value);
    var k := FindLatestActive(b.rows, o).value;
    assert RowSound(was, was.rows[k]);
    var reversal := Reversal(b.balances, o, k, b.rows[k]);
    var entry := Replacement(reversal, o, parts, DateOr(date, b.rows[k].txnDate));
    var now := Rebook(b, o, parts, date).value;
    RebookedBooks(b, o, k, parts, date);
    assert Current(now, o) == Current(b, o);
    assert forall other :: other != o ==> Current(now, other) == Current(was, other);
    RebookedRows(was, now, o, k, reversal, entry);
  }

  lemma RebookedRows(was: Books, now: Books, o: Owner, k: nat, reversal: Row, entry: Row)
    requires LedgerInv(was) && Current(was, o).Some?
    requires FindLatestActive(was.rows, o) == Some(k)
    requires now.rows == SoftDelete(was.rows, k) + [reversal] + [entry]
    requires now.balances == was.balances.Plus(reversal.Effect()).Plus(entry.Effect())
    requires forall other :: other != o ==> Current(now, other) == Current(was, other)
    requires Current(now, o) == Some(entry.parts)
    requires entry.ActiveEntryOf(o) && entry.direction == o.Natural()
    requires entry.parts.NonNegative() && entry.parts.Positive()
    requires reversal.isReversal && reversal.reversalOf == Some(k) && reversal.owner == Some(o)
    requires reversal.parts == was.rows[k].parts && reversal.direction == o.Natural().Opposite()
    ensures AllSound(now) && AllBooked(now) && Paired(now.rows) && Agrees(now)
  {
    assert Booked(was.rows, o, Current(was, o).value);
    assert RowSound(was, was.rows[k]);
    assert AllBooked(now) by {
      RebookedOwner(was.rows, o, k, reversal, entry);
      AllStayBooked(was, now, o);
    }
    assert AllSound(now) by {
      RowsStaySound(was, now, o, |was.rows|);
    }
    RebookedAgrees(was, now, k, reversal, entry);
    RebookKeepsPairing(was.rows, o, k, reversal, entry);
  }

  lemma RebookedAgrees(was: Books, now: Books, k: nat, reversal: Row, entry: Row)
    requires Agrees(was) && k < |was.rows| && was.rows[k].Visible() && was.rows[k].owner.Some?
    requires now.rows == SoftDelete(was.rows, k) + [reversal] + [entry]
    requires now.balances == was.balances.Plus(reversal.Effect()).Plus(entry.Effect())
    requires reversal.owner.Some? && reversal.isReversal
    requires reversal.parts == was.rows[k].parts && reversal.direction == was.rows[k].direction.Opposite()
    requires entry.Visible() && entry.owner.Some?
    ensures Agrees(now)
  {
    RebookSums(was.rows, k, reversal, entry);
  }

  lemma RebookedBooks(b: Books, o: Owner, k: nat, parts: Amounts, date: Option<int>)
    requires b.balances.Consistent() && parts.NonNegative()
    requires FindLatestActive(b.rows, o) == Some(k) && b.rows[k].parts.NonNegative()
    requires Rebook(b, o, parts, date).Success?
    ensures var reversal := Reversal(b.balances, o, k, b.rows[k]);
            var entry := Replacement(reversal, o, parts, DateOr(date, b.rows[k].txnDate));
            var now := Rebook(b, o, parts, date).value;
            && parts.Positive()
            && now.rows == SoftDelete(b.rows, k) + [reversal] + [entry]
            && now.balances == b.balances.Plus(reversal.Effect()).Plus(entry.Effect())
            && now.balances.Consistent()
            && now.incomes == b.incomes && now.expenses == b.expenses
  {
  }

  lemma RebookedOwner(rows: seq<Row>, o: Owner, k: nat, reversal: Row, entry: Row)
    requires SoleEntry(rows, o, k)
    requires rows[k].direction == o.Natural()
    requires SumAmounts(rows, NetOf(o)) == rows[k].Effect()
    requires reversal.owner == Some(o) && reversal.isReversal
    requires reversal.parts == rows[k].parts && reversal.direction == o.Natural().Opposite()
    requires entry.ActiveEntryOf(o) && entry.direction == o.Natural()
    ensures Booked(SoftDelete(rows, k) + [reversal] + [entry], o, entry.parts)
  {
    var hidden := SoftDelete(rows, k);
    assert SoleEntry(hidden + [reversal] + [entry], o, |rows| + 1);
    SumAmountsUpdate(rows, k, rows[k].(deleted := true), NetOf(o));
    SumAmountsAppend(hidden, reversal, NetOf(o));
    SumAmountsAppend(hidden + [reversal], entry, NetOf(o));
  }

  lemma RebookSums(rows: seq<Row>, k: nat, reversal: Row, entry: Row)
    requires k < |rows| && rows[k].Visible() && rows[k].owner.Some?
    requires reversal.owner.Some? && reversal.isReversal
    requires reversal.parts == rows[k].parts && reversal.direction == rows[k].direction.Opposite()
    requires entry.Visible() && entry.owner.Some?
    ensures SumAmounts(SoftDelete(rows, k) + [reversal] + [entry], LinkedPart) ==
            SumAmounts(rows, LinkedPart).Plus(reversal.Effect()).Plus(entry.Effect())
    ensures SumAmounts(SoftDelete(rows, k) + [reversal] + [entry], VisiblePart) ==
            SumAmounts(rows, VisiblePart).Plus(reversal.Effect()).Plus(entry.Effect())
  {
    var hidden := SoftDelete(rows, k);
    SumAmountsUpdate(rows, k, rows[k].(deleted := true), LinkedPart);
    SumAmountsAppend(hidden, reversal, LinkedPart);
    SumAmountsAppend(hidden + [reversal], entry, LinkedPart);
    SumAmountsUpdate(rows, k, rows[k].(deleted := true), VisiblePart);
    SumAmountsAppend(hidden, reversal, VisiblePart);
    SumAmountsAppend(hidden + [reversal], entry, VisiblePart);
  }

  lemma RebookKeepsPairing(rows: seq<Row>, o: Owner, k: nat, reversal: Row, entry: Row)
    requires Paired(rows) && k < |rows| && rows[k].ActiveEntryOf(o)
    requires reversal.isReversal && reversal.reversalOf == Some(k) && reversal.owner == Some(o)
    requires reversal.parts == rows[k].parts && reversal.direction == rows[k].direction.Opposite()
    requires entry.Visible()
    ensures Paired(SoftDelete(rows, k) + [reversal] + [entry])
  {
    var now := SoftDelete(rows, k) + [reversal];
    assert Reverses(now, |rows|, k);
    forall j | 0 <= j < |now| && now[j].isReversal
      ensures now[j].reversalOf.Some? && Reverses(now, j, now[j].reversalOf.value)
    {
      assert j < |rows| ==> Reverses(rows, j, rows[j].reversalOf.value);
    }
    forall i | 0 <= i < |now| && now[i].deleted && !now[i].isReversal && now[i].owner.Some?
      ensures HasReversal(now, i)
    {
      if i != k {
        assert HasReversal(rows, i);
        var j :| 0 <= j < |rows| && Reverses(rows, j, i);
        assert Reverses(now, j, i);
      }
    }
    AppendKeepsPairing(now, entry);
  }

  // ----- unbooking

  /** Deleting gives back exactly the current amounts; it is refused exactly when an income
      has already been spent. */
  lemma UnbookOutcome(b: Books, o: Owner)
    requires LedgerInv(b) && Current(b, o).Some?
    ensures var after := b.balances.Plus(Signed(o.Natural().Opposite(), Current(b, o).value));
            && (Unbook(b, o).Success? <==> after.shu >= 0 && after.capital >= 0)
            && (Unbook(b, o).Success? ==> Unbook(b, o).value.balances == after)
    ensures o.ExpenseOwner? ==> Unbook(b, o).Success?
  {
  }

  lemma UnbookKeepsInvariant(b: Books, gone: Books, o: Owner)
    requires LedgerInv(b) && Current(b, o).Some? && Unbook(b, o).Success?
    requires gone.balances == Unbook(b, o).value.balances && gone.rows == WithoutOwner(b.rows, o)
    requires Current(gone, o).None?
    requires forall other :: other != o ==> Current(gone, other) == Current(b, other)
    ensures LedgerInv(gone)
  {
    UnbookOutcome(b, o);
    UnbookedRows(b, gone, o, Current(b, o).value);
  }

  lemma UnbookedRows(was: Books, gone: Books, o: Owner, parts: Amounts)
    requires LedgerInv(was) && Current(was, o) == Some(parts)
    requires gone.rows == WithoutOwner(was.rows, o)
    requires gone.balances == was.balances.Plus(Signed(o.Natural().Opposite(), parts))
    requires Current(gone, o).None?
    requires forall other :: other != o ==> Current(gone, other) == Current(was, other)
    ensures AllSound(gone) && AllBooked(gone) && Paired(gone.rows) && Agrees(gone)
  {
    UnbookedAgrees(was, gone, o, parts);
    AllStayBooked(was, gone, o);
    RowsStaySound(was, gone, o, |was.rows|);
    UnbookKeepsPairing(was.rows, o);
  }

  lemma UnbookedAgrees(was: Books, gone: Books, o: Owner, parts: Amounts)
    requires Agrees(was) && Booked(was.rows, o, parts)
    requires gone.rows == WithoutOwner(was.rows, o)
    requires gone.balances == was.balances.Plus(Signed(o.Natural().Opposite(), parts))
    ensures Agrees(gone)
  {
    UnbookSums(was.rows, o, FindLatestActive(was.rows, o).value);
  }

  function LinkedToOthers(o: Owner): Row -> Amounts {
    (r: Row) => if r.owner == Some(o) then ZERO else LinkedPart(r)
  }

  function VisibleOf(o: Owner): Row -> Amounts {
    (r: Row) => if r.owner == Some(o) then VisiblePart(r) else ZERO
  }

  function VisibleToOthers(o: Owner): Row -> Amounts {
    (r: Row) => if r.owner == Some(o) then ZERO else VisiblePart(r)
  }

  lemma UnbookSums(rows: seq<Row>, o: Owner, k: nat)
    requires SoleEntry(rows, o, k)
    requires SumAmounts(rows, NetOf(o)) == rows[k].Effect()
    ensures SumAmounts(rows, LinkedPart) == SumAmounts(WithoutOwner(rows, o), LinkedPart).Plus(rows[k].Effect())
    ensures SumAmounts(rows, VisiblePart) == SumAmounts(WithoutOwner(rows, o), VisiblePart).Plus(rows[k].Effect())
  {
    UnbookLinkedSum(rows, o);
    UnbookVisibleSum(rows, o, k);
  }

  lemma UnbookLinkedSum(rows: seq<Row>, o: Owner)
    ensures SumAmounts(rows, LinkedPart) ==
            SumAmounts(WithoutOwner(rows, o), LinkedPart).Plus(SumAmounts(rows, NetOf(o)))
  {
    var now := WithoutOwner(rows, o);
    assert SumAmounts(rows, LinkedPart) == SumAmounts(rows, LinkedToOthers(o)).Plus(SumAmounts(rows, NetOf(o))) by {
      SumAmountsSplit(rows, LinkedPart, LinkedToOthers(o), NetOf(o));
    }
    assert SumAmounts(now, LinkedPart) == SumAmounts(rows, LinkedToOthers(o)) by {
      SumAmountsSame(now, rows, LinkedPart, LinkedToOthers(o));
    }
  }

  lemma UnbookVisibleSum(rows: seq<Row>, o: Owner, k: nat)
    requires SoleEntry(rows, o, k)
    ensures SumAmounts(rows, VisiblePart) == SumAmounts(WithoutOwner(rows, o), VisiblePart).Plus(rows[k].Effect())
  {
    var now := WithoutOwner(rows, o);
    assert SumAmounts(rows, VisiblePart) ==
           SumAmounts(rows, VisibleToOthers(o)).Plus(SumAmounts(rows, VisibleOf(o))) by {
      SumAmountsSplit(rows, VisiblePart, VisibleToOthers(o), VisibleOf(o));
    }
    assert SumAmounts(now, VisiblePart) == SumAmounts(rows, VisibleToOthers(o)) by {
      SumAmountsSame(now, rows, VisiblePart, VisibleToOthers(o));
    }
    assert SumAmounts(rows, VisibleOf(o)) == rows[k].Effect() by {
      SumAmountsSole(rows, k, VisibleOf(o));
    }
  }

  lemma UnbookKeepsPairing(rows: seq<Row>, o: Owner)
    requires Paired(rows)
    ensures Paired(WithoutOwner(rows, o))
  {
    var now := WithoutOwner(rows, o);
    forall j | 0 <= j < |now| && now[j].isReversal
      ensures now[j].reversalOf.Some? && Reverses(now, j, now[j].reversalOf.value)
    {
      assert Reverses(rows, j, rows[j].reversalOf.value);
    }
    forall i | 0 <= i < |now| && now[i].deleted && !now[i].isReversal && now[i].owner.Some?
      ensures HasReversal(now, i)
    {
      assert HasReversal(rows, i);
      var j :| 0 <= j < |rows| && Reverses(rows, j, i);
      assert Reverses(now, j, i);
    }
  }
}
