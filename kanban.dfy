/** The seller's kanban board: the four columns, the rule that files a match
    group under a column, and the per-column lists the board displays. */
module Kanban {
  import opened Matches

  /** The board's columns, in display order. */
  datatype Column = Lobby | PendingPayment | Ready | Completed {
    /** The column id the board passes to the classifier. */
    function Id(): string
    {
      match this
      case Lobby => "lobby"
      case PendingPayment => "pending_payment"
      case Ready => "ready"
      case Completed => "completed"
    }
  }

  /** The column an id names, if any: the inverse of `Column.Id`. */
  function ParseColumnId(columnId: string): (r: Option<Column>)
    ensures r.Some? ==> r.value.Id() == columnId
    ensures r.None? ==> forall c: Column :: c.Id() != columnId
  {
    if columnId == "lobby" then Some(Lobby)
    else if columnId == "pending_payment" then Some(PendingPayment)
    else if columnId == "ready" then Some(Ready)
    else if columnId == "completed" then Some(Completed)
    else None
  }

  lemma ColumnIdRoundTrip(c: Column)
    ensures ParseColumnId(c.Id()) == Some(c)
  {
  }

  /** The filter predicate of the classifier, one early return per column id;
      an id that names no column accepts nothing. */
  predicate InColumn(columnId: string, m: MatchGroup)
  {
    var isFull := IsFull(m);
    var status := EffStatus(m.status);
    if columnId == "lobby" then status == "pending" && !isFull
    else if columnId == "pending_payment" then status == "filled" || (status == "pending" && isFull)
    else if columnId == "ready" then status == "paid"
    else if columnId == "completed" then status == "completed"
    else false
  }

  /** The effective statuses the classifier knows. */
  predicate Recognised(m: MatchGroup)
  {
    EffStatus(m.status) in {"pending", "filled", "paid", "completed"}
  }

  /** Reference classification: the single column a group belongs to, or
      None for a status the board does not know. */
  function Classify(m: MatchGroup): (r: Option<Column>)
    ensures r.Some? <==> Recognised(m)
  {
    var status := EffStatus(m.status);
    if status == "pending" then Some(if IsFull(m) then PendingPayment else Lobby)
    else if status == "filled" then Some(PendingPayment)
    else if status == "paid" then Some(Ready)
    else if status == "completed" then Some(Completed)
    else None
  }

  /** The classifier accepts a group for a column id exactly when that id is
      the id of the group's reference column. */
  lemma ClassifyAgrees(columnId: string, m: MatchGroup)
    ensures InColumn(columnId, m) <==> Classify(m).Some? && Classify(m).value.Id() == columnId
  {
  }

  /** No group is shown in two columns. */
  lemma ColumnsExclusive(a: string, b: string, m: MatchGroup)
    requires InColumn(a, m) && InColumn(b, m)
    ensures a == b
  {
    ClassifyAgrees(a, m);
    ClassifyAgrees(b, m);
  }

  /** A group with a known status is shown in exactly one of the four
      columns, and a group with an unknown status in none, whatever id is asked. */
  lemma RecognisedIffOneColumn(m: MatchGroup)
    ensures Recognised(m) ==> exists c: Column :: InColumn(c.Id(), m)
    ensures !Recognised(m) ==> forall columnId: string :: !InColumn(columnId, m)
  {
    if Recognised(m) {
      ClassifyAgrees(Classify(m).value.Id(), m);
    }
  }

  /** An empty (or absent) status is classified exactly as "pending". */
  lemma EmptyStatusAsPending(columnId: string, m: MatchGroup)
    ensures InColumn(columnId, m.(status := "")) <==> InColumn(columnId, m.(status := DefaultStatus))
  {
  }

  /** A pending group waits in the lobby until it is full, then moves to
      pending payment; it is never in both and never elsewhere. */
  lemma PendingGoesToExactlyOne(m: MatchGroup)
    requires EffStatus(m.status) == "pending"
    ensures InColumn(Lobby.Id(), m) <==> !IsFull(m)
    ensures InColumn(PendingPayment.Id(), m) <==> IsFull(m)
    ensures forall columnId: string :: InColumn(columnId, m) ==> columnId == Lobby.Id() || columnId == PendingPayment.Id()
  {
  }

  /** "filled", "paid" and "completed" decide the column by themselves,
      whatever the member count and capacity. */
  lemma StatusDecidesColumn(m: MatchGroup, columnId: string)
    requires EffStatus(m.status) in {"filled", "paid", "completed"}
    ensures EffStatus(m.status) == "filled" ==> (InColumn(columnId, m) <==> columnId == PendingPayment.Id())
    ensures EffStatus(m.status) == "paid" ==> (InColumn(columnId, m) <==> columnId == Ready.Id())
    ensures EffStatus(m.status) == "completed" ==> (InColumn(columnId, m) <==> columnId == Completed.Id())
  {
  }

  /** `xs` is `ys` with some elements dropped and the rest kept in order. */
  predicate IsSubsequence<T(==)>(xs: seq<T>, ys: seq<T>)
    decreases |ys|
  {
    if xs == [] then true
    else if ys == [] then false
    else (xs[0] == ys[0] && IsSubsequence(xs[1..], ys[1..])) || IsSubsequence(xs, ys[1..])
  }

  /** The groups shown in one column: the input filtered by `InColumn`. The
      result keeps the input's order, holds exactly the accepted groups and
      each of them as often as the input does. */
  function ColumnMatches(columnId: string, ms: seq<MatchGroup>): (r: seq<MatchGroup>)
    ensures |r| <= |ms|
    ensures IsSubsequence(r, ms)
    ensures forall m :: m in r ==> InColumn(columnId, m)
    ensures forall m :: multiset(r)[m] == if InColumn(columnId, m) then multiset(ms)[m] else 0
  {
    if ms == [] then []
    else
      var rest := ColumnMatches(columnId, ms[1..]);
      assert ms == [ms[0]] + ms[1..];
      if InColumn(columnId, ms[0]) then
        assert ([ms[0]] + rest)[1..] == rest;
        [ms[0]] + rest
      else
        rest
  }

  /** A column id that names no column yields an empty list (no group is
      accepted for it, and a column holds only accepted groups). */
  lemma UnknownColumnIdEmpty(columnId: string, ms: seq<MatchGroup>)
    requires ParseColumnId(columnId) == None
    ensures ColumnMatches(columnId, ms) == []
  {
  }

  /** How many columns show one group (0 or 1). */
  function Hits(m: MatchGroup): nat
  {
    (if InColumn(Lobby.Id(), m) then 1 else 0)
    + (if InColumn(PendingPayment.Id(), m) then 1 else 0)
    + (if InColumn(Ready.Id(), m) then 1 else 0)
    + (if InColumn(Completed.Id(), m) then 1 else 0)
  }

  lemma HitsOfOne(m: MatchGroup)
    ensures Hits(m) == if Recognised(m) then 1 else 0
  {
  }

  /** The number of cards across the four columns. */
  function TotalShown(ms: seq<MatchGroup>): nat
  {
    |ColumnMatches(Lobby.Id(), ms)| + |ColumnMatches(PendingPayment.Id(), ms)|
    + |ColumnMatches(Ready.Id(), ms)| + |ColumnMatches(Completed.Id(), ms)|
  }

  /** The number of groups whose status the board does not know. */
  function CountUnrecognised(ms: seq<MatchGroup>): nat
  {
    if ms == [] then 0
    else (if Recognised(ms[0]) then 0 else 1) + CountUnrecognised(ms[1..])
  }

  /** Every group is shown once, except those with an unknown status. */
  lemma {:induction false} TotalShownCount(ms: seq<MatchGroup>)
    ensures TotalShown(ms) + CountUnrecognised(ms) == |ms|
  {
    if ms != [] {
      TotalShownCount(ms[1..]);
      HitsOfOne(ms[0]);
    }
  }

  lemma {:induction false} NoneUnrecognised(ms: seq<MatchGroup>)
    ensures CountUnrecognised(ms) == 0 <==> forall m :: m in ms ==> Recognised(m)
  {
    if ms != [] {
      NoneUnrecognised(ms[1..]);
      assert forall m :: m in ms <==> m == ms[0] || m in ms[1..];
    }
  }

  /** The column counts add up to at most the number of groups, with
      equality exactly when every group has a known status. */
  lemma TotalShownBound(ms: seq<MatchGroup>)
    ensures TotalShown(ms) <= |ms|
    ensures TotalShown(ms) == |ms| <==> forall m :: m in ms ==> Recognised(m)
  {
    TotalShownCount(ms);
    NoneUnrecognised(ms);
  }

  /** Example classifications. */
  lemma ClassificationExamples(alice: Member, bob: Member)
    ensures InColumn("lobby", MatchGroup("pending", Some(2), [alice]))
    ensures InColumn("pending_payment", MatchGroup("pending", Some(2), [alice, bob]))
    ensures InColumn("pending_payment", MatchGroup("filled", Some(2), []))
    ensures InColumn("ready", MatchGroup("paid", Some(5), [alice]))
    ensures Classify(MatchGroup("shipped", Some(2), [alice])) == None
  {
  }

  /** What the board holds: the fetched groups and whether it is still loading. */
  datatype BoardState = BoardState(matches: seq<MatchGroup>, loading: bool)

  /** Before any fetch completes: no groups, loading. */
  const InitialBoard := BoardState([], true)

  /** The end of the fetch: a returned list (an empty one included) replaces
      the groups, a null result keeps them; loading ends either way. */
  function ApplyFetch(b: BoardState, data: Option<seq<MatchGroup>>): (r: BoardState)
    ensures !r.loading
    ensures data.Some? ==> r.matches == data.value
    ensures data.None? ==> r.matches == b.matches
  {
    match data
    case Some(groups) => BoardState(groups, false)
    case None => BoardState(b.matches, false)
  }

  /** A null first fetch leaves a loaded board whose every column is empty. */
  lemma NullFetchEmptyBoard(columnId: string)
    ensures !ApplyFetch(InitialBoard, None).loading
    ensures ColumnMatches(columnId, ApplyFetch(InitialBoard, None).matches) == []
  {
  }
}
