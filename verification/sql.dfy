/** Queries over scheduled tasks: filters are turned into a key range, and every row of the range is
    then tested against all filters (storage/sqli/task_table.go).

    A string literal comes with the instant it parses to, if any. Filters on other columns are opaque
    tests. */
module SqlTables {
  import opened ByteStrings
  import opened Ids
  import opened Keys
  import opened TaskStores
  import opened Iteration

  datatype Op = Greater | GreaterOrEqual | LessThan | LessOrEqual | Equal

  datatype Row = Row(
    queue: Bytes,
    id: string,
    deliverAt: int,
    lastRetry: Option<int>,
    metadata: map<string, string>,
    payload: Bytes)

  datatype Expr =
    | Field(name: string)
    | Literal(text: Bytes, time: Option<int>)
    | Compare(op: Op, left: Expr, right: Expr)
    | Between(val: Expr, lower: Expr, upper: Expr)
    | And(left: Expr, right: Expr)
    | Opaque(children: seq<Expr>, test: Row -> bool)

  const DELIVER_AT: string := "deliver_at"
  const QUEUE: string := "queue"

  // ---------- Walking an expression, in preorder ----------

  /** isFieldExpression */
  predicate Mentions(e: Expr, field: string) {
    match e
    case Field(name) => name == field
    case Literal(_, _) => false
    case Compare(_, l, r) => Mentions(l, field) || Mentions(r, field)
    case Between(v, lo, hi) => Mentions(v, field) || Mentions(lo, field) || Mentions(hi, field)
    case And(l, r) => Mentions(l, field) || Mentions(r, field)
    case Opaque(cs, _) => exists i :: 0 <= i < |cs| && Mentions(cs[i], field)
  }

  /** getTime: the first string literal that parses to a time other than the zero one. */
  function TimeIn(e: Expr, found: int): int
    decreases e, 1
  {
    if found != ZERO_TIME then found
    else
      match e
      case Field(_) => found
      case Literal(_, t) => if t.Some? then t.value else ZERO_TIME
      case Compare(_, l, r) => TimeIn(r, TimeIn(l, found))
      case Between(v, lo, hi) => TimeIn(hi, TimeIn(lo, TimeIn(v, found)))
      case And(l, r) => TimeIn(r, TimeIn(l, found))
      case Opaque(cs, _) => TimeInAll(cs, found)
  }

  function TimeInAll(es: seq<Expr>, found: int): int
    decreases es, 0
  {
    if es == [] then found else TimeInAll(es[1..], TimeIn(es[0], found))
  }

  /** getQueue: the first string literal that is not empty. */
  function TextIn(e: Expr, found: Bytes): Bytes
    decreases e, 1
  {
    if found != [] then found
    else
      match e
      case Field(_) => found
      case Literal(text, _) => text
      case Compare(_, l, r) => TextIn(r, TextIn(l, found))
      case Between(v, lo, hi) => TextIn(hi, TextIn(lo, TextIn(v, found)))
      case And(l, r) => TextIn(r, TextIn(l, found))
      case Opaque(cs, _) => TextInAll(cs, found)
  }

  function TextInAll(es: seq<Expr>, found: Bytes): Bytes
    decreases es, 0
  {
    if es == [] then found else TextInAll(es[1..], TextIn(es[0], found))
  }

  // ---------- What the walks find ----------

  /** The fields and literals of an expression, in the order of the walk. */
  function Leaves(e: Expr): seq<Expr>
    decreases e, 1
  {
    match e
    case Field(_) => [e]
    case Literal(_, _) => [e]
    case Compare(_, l, r) => Leaves(l) + Leaves(r)
    case Between(v, lo, hi) => Leaves(v) + Leaves(lo) + Leaves(hi)
    case And(l, r) => Leaves(l) + Leaves(r)
    case Opaque(cs, _) => LeavesAll(cs)
  }

  function LeavesAll(es: seq<Expr>): seq<Expr>
    decreases es, 0
  {
    if es == [] then [] else Leaves(es[0]) + LeavesAll(es[1..])
  }

  predicate GivesTime(e: Expr) { e.Literal? && e.time.Some? && e.time.value != ZERO_TIME }

  predicate GivesText(e: Expr) { e.Literal? && e.text != [] }

  /** The first of these leaves that gives a time. */
  function FirstTime(leaves: seq<Expr>): int {
    if leaves == [] then ZERO_TIME
    else if GivesTime(leaves[0]) then leaves[0].time.value
    else FirstTime(leaves[1..])
  }

  function FirstText(leaves: seq<Expr>): Bytes {
    if leaves == [] then [] else if GivesText(leaves[0]) then leaves[0].text else FirstText(leaves[1..])
  }

  lemma {:induction false} FirstOfBoth(a: seq<Expr>, b: seq<Expr>)
    ensures FirstTime(a + b) == if FirstTime(a) != ZERO_TIME then FirstTime(a) else FirstTime(b)
    ensures FirstText(a + b) == if FirstText(a) != [] then FirstText(a) else FirstText(b)
  {
    if a == [] {
      assert a + b == b;
    } else {
      FirstOfBoth(a[1..], b);
      assert (a + b)[1..] == a[1..] + b;
    }
  }

  lemma {:induction false} WalksFindFirst(e: Expr, time: int, text: Bytes)
    ensures TimeIn(e, time) == if time != ZERO_TIME then time else FirstTime(Leaves(e))
    ensures TextIn(e, text) == if text != [] then text else FirstText(Leaves(e))
    decreases e, 1
  {
    match e
    case Field(_) =>
    case Literal(_, _) =>
    case Compare(_, l, r) => WalksOfTwo(e, l, r, time, text);
    case And(l, r) => WalksOfTwo(e, l, r, time, text);
    case Between(v, lo, hi) =>
      WalksFindFirst(v, time, text);
      WalksFindFirst(lo, TimeIn(v, time), TextIn(v, text));
      WalksFindFirst(hi, TimeIn(lo, TimeIn(v, time)), TextIn(lo, TextIn(v, text)));
      FirstOfBoth(Leaves(v), Leaves(lo));
      FirstOfBoth(Leaves(v) + Leaves(lo), Leaves(hi));
    case Opaque(cs, _) => WalksFindFirstAll(cs, time, text);
  }

  lemma {:induction false} WalksOfTwo(e: Expr, l: Expr, r: Expr, time: int, text: Bytes)
    requires l < e && r < e
    ensures TimeIn(r, TimeIn(l, time)) == if time != ZERO_TIME then time else FirstTime(Leaves(l) + Leaves(r))
    ensures TextIn(r, TextIn(l, text)) == if text != [] then text else FirstText(Leaves(l) + Leaves(r))
    decreases e, 0
  {
    WalksFindFirst(l, time, text);
    WalksFindFirst(r, TimeIn(l, time), TextIn(l, text));
    FirstOfBoth(Leaves(l), Leaves(r));
  }

  lemma {:induction false} WalksFindFirstAll(es: seq<Expr>, time: int, text: Bytes)
    ensures TimeInAll(es, time) == if time != ZERO_TIME then time else FirstTime(LeavesAll(es))
    ensures TextInAll(es, text) == if text != [] then text else FirstText(LeavesAll(es))
    decreases es, 0
  {
    if es != [] {
      WalksFindFirst(es[0], time, text);
      WalksFindFirstAll(es[1..], TimeIn(es[0], time), TextIn(es[0], text));
      FirstOfBoth(Leaves(es[0]), LeavesAll(es[1..]));
    }
  }

  lemma {:induction false} FirstTimeIs(leaves: seq<Expr>)
    ensures
      || (FirstTime(leaves) == ZERO_TIME && forall l :: l in leaves ==> !GivesTime(l))
      || exists i :: && 0 <= i < |leaves| && GivesTime(leaves[i]) && leaves[i].time.value == FirstTime(leaves)
                     && forall j :: 0 <= j < i ==> !GivesTime(leaves[j])
  {
    if leaves != [] && !GivesTime(leaves[0]) {
      var rest := leaves[1..];
      FirstTimeIs(rest);
      if i :| && 0 <= i < |rest| && GivesTime(rest[i]) && rest[i].time.value == FirstTime(rest)
              && forall j :: 0 <= j < i ==> !GivesTime(rest[j])
      {
        assert leaves[i + 1] == rest[i];
        assert forall j :: 0 < j <= i ==> leaves[j] == rest[j - 1];
      }
    }
  }

  lemma {:induction false} FirstTextIs(leaves: seq<Expr>)
    ensures
      || (FirstText(leaves) == [] && forall l :: l in leaves ==> !GivesText(l))
      || exists i :: && 0 <= i < |leaves| && GivesText(leaves[i]) && leaves[i].text == FirstText(leaves)
                     && forall j :: 0 <= j < i ==> !GivesText(leaves[j])
  {
    if leaves != [] && !GivesText(leaves[0]) {
      var rest := leaves[1..];
      FirstTextIs(rest);
      if i :| && 0 <= i < |rest| && GivesText(rest[i]) && rest[i].text == FirstText(rest)
              && forall j :: 0 <= j < i ==> !GivesText(rest[j])
      {
        assert leaves[i + 1] == rest[i];
        assert forall j :: 0 < j <= i ==> leaves[j] == rest[j - 1];
      }
    }
  }

  /** getTime gives the time of the first literal in the expression, however nested, that parses to one other
      than the zero time, and the zero time when there is none. */
  lemma TimeInIsFirst(e: Expr)
    ensures
      var leaves, time := Leaves(e), TimeIn(e, ZERO_TIME);
      || (time == ZERO_TIME && forall l :: l in leaves ==> !GivesTime(l))
      || exists i :: && 0 <= i < |leaves| && GivesTime(leaves[i]) && leaves[i].time.value == time
                     && forall j :: 0 <= j < i ==> !GivesTime(leaves[j])
  {
    WalksFindFirst(e, ZERO_TIME, []);
    FirstTimeIs(Leaves(e));
  }

  /** getQueue gives the first text in the expression, however nested, that is not empty, if any. */
  lemma TextInIsFirst(e: Expr)
    ensures
      var leaves, text := Leaves(e), TextIn(e, []);
      || (text == [] && forall l :: l in leaves ==> !GivesText(l))
      || exists i :: && 0 <= i < |leaves| && GivesText(leaves[i]) && leaves[i].text == text
                     && forall j :: 0 <= j < i ==> !GivesText(leaves[j])
  {
    WalksFindFirst(e, ZERO_TIME, []);
    FirstTextIs(Leaves(e));
  }

  /** isFieldExpression finds a field anywhere in the expression. */
  lemma {:induction false} MentionsIsLeaf(e: Expr, field: string)
    ensures Mentions(e, field) <==> Field(field) in Leaves(e)
    decreases e, 1
  {
    match e
    case Field(_) =>
    case Literal(_, _) =>
    case Compare(_, l, r) => MentionsIsLeaf(l, field); MentionsIsLeaf(r, field);
    case Between(v, lo, hi) => MentionsIsLeaf(v, field); MentionsIsLeaf(lo, field); MentionsIsLeaf(hi, field);
    case And(l, r) => MentionsIsLeaf(l, field); MentionsIsLeaf(r, field);
    case Opaque(cs, _) => MentionsInAll(cs, field);
  }

  lemma {:induction false} MentionsInAll(es: seq<Expr>, field: string)
    ensures (exists i :: 0 <= i < |es| && Mentions(es[i], field)) <==> Field(field) in LeavesAll(es)
    decreases es, 0
  {
    if es != [] {
      MentionsIsLeaf(es[0], field);
      MentionsInAll(es[1..], field);
      if i :| 0 <= i < |es[1..]| && Mentions(es[1..][i], field) { assert Mentions(es[i + 1], field); }
      if i :| 0 < i < |es| && Mentions(es[i], field) { assert Mentions(es[1..][i - 1], field); }
    }
  }

  // ---------- Bounds ----------

  /** The fields initBounds fills in; both times start as the zero time. */
  datatype Bounds = Bounds(start: int, end: int, queue: Bytes, queueFound: bool)

  const UNSET := Bounds(ZERO_TIME, ZERO_TIME, [], false)

  /** detectTimeBounds: each comparison replaces both ends. */
  function TimeBounds(e: Expr): Option<(int, int)> {
    match e
    case Between(v, lo, hi) =>
      if Mentions(v, DELIVER_AT) then Some((TimeIn(lo, ZERO_TIME), TimeIn(hi, ZERO_TIME))) else None
    case Compare(op, l, r) =>
      if !Mentions(l, DELIVER_AT) then None
      else
        var t := TimeIn(r, ZERO_TIME);
        (match op
         case Greater => Some((t, MustTime(MAX)))
         case GreaterOrEqual => Some((t, MustTime(MAX)))
         case LessThan => Some((MustTime(MIN), t))
         case LessOrEqual => Some((MustTime(MIN), t))
         case Equal => Some((t, t)))
    case _ => None
  }

  /** One filter: a node that gives a time range or a queue is not descended into. */
  function Scan(e: Expr, b: Bounds): Bounds
    decreases e, 1
  {
    if TimeBounds(e).Some? then b.(start := TimeBounds(e).value.0, end := TimeBounds(e).value.1)
    else if e.Compare? && e.op.Equal? && Mentions(e.left, QUEUE) then
      b.(queue := TextIn(e.right, []), queueFound := true)
    else
      match e
      case Field(_) => b
      case Literal(_, _) => b
      case Compare(_, l, r) => Scan(r, Scan(l, b))
      case Between(v, lo, hi) => Scan(hi, Scan(lo, Scan(v, b)))
      case And(l, r) => Scan(r, Scan(l, b))
      case Opaque(cs, _) => ScanAll(cs, b)
  }

  function ScanAll(es: seq<Expr>, b: Bounds): Bounds
    decreases es, 0
  {
    if es == [] then b else ScanAll(es[1..], Scan(es[0], b))
  }

  /** initBounds: None when a bound or the queue is missing. */
  function InitBounds(filters: seq<Expr>): Option<Bounds> {
    var b := ScanAll(filters, UNSET);
    if b.start == ZERO_TIME || b.end == ZERO_TIME || !b.queueFound then None else Some(b)
  }

  function RangeOf(b: Bounds): TaskRange { ScheduledRange(b.queue, New(b.start, 0), New(b.end, 0)) }

  // ---------- Meaning ----------

  predicate Compares(op: Op, a: int, b: int) {
    match op
    case Greater => a > b
    case GreaterOrEqual => a >= b
    case LessThan => a < b
    case LessOrEqual => a <= b
    case Equal => a == b
  }

  /** The value of a filter on a row, for the filters described below. */
  predicate Holds(e: Expr, row: Row) {
    match e
    case Compare(op, Field(name), Literal(text, t)) =>
      if name == DELIVER_AT && t.Some? then Compares(op, row.deliverAt, t.value)
      else name == QUEUE && op.Equal? && row.queue == text
    case Between(Field(name), Literal(_, lo), Literal(_, hi)) =>
      name == DELIVER_AT && lo.Some? && hi.Some? && lo.value <= row.deliverAt <= hi.value
    case And(l, r) => Holds(l, row) && Holds(r, row)
    case Opaque(_, test) => test(row)
    case _ => false
  }

  predicate AllHold(filters: seq<Expr>, row: Row) { forall i :: 0 <= i < |filters| ==> Holds(filters[i], row) }

  function RowOf(t: Task): Row {
    Row(t.queue, t.id, if t.scheduleTime.Some? then t.scheduleTime.value else 0, t.lastRetry, t.metadata, t.payload)
  }

  /** A time comparison with the field on the left and times on the right. */
  predicate IsTimeFilter(e: Expr) {
    || (e.Compare? && e.left.Field? && e.left.name == DELIVER_AT && e.right.Literal? && e.right.time.Some?)
    || (e.Between? && e.val.Field? && e.val.name == DELIVER_AT && e.lower.Literal? && e.upper.Literal?
        && e.lower.time.Some? && e.upper.time.Some?)
  }

  predicate IsQueueFilter(e: Expr) {
    e.Compare? && e.op.Equal? && e.left.Field? && e.left.name == QUEUE && e.right.Literal?
  }

  /** A conjunction of time comparisons, queue equalities and tests that mention neither column. */
  predicate Supported(e: Expr) {
    || IsTimeFilter(e)
    || IsQueueFilter(e)
    || (e.And? && Supported(e.left) && Supported(e.right))
    || (e.Opaque? && !Mentions(e, DELIVER_AT) && !Mentions(e, QUEUE))
  }

  predicate AllSupported(filters: seq<Expr>) { forall i :: 0 <= i < |filters| ==> Supported(filters[i]) }

  // ---------- The filters that decide ----------

  lemma {:induction false} ForeignScan(e: Expr, b: Bounds)
    requires !Mentions(e, DELIVER_AT) && !Mentions(e, QUEUE)
    ensures Scan(e, b) == b
    decreases e, 1
  {
    match e
    case Field(_) =>
    case Literal(_, _) =>
    case Compare(_, l, r) => ForeignScan(l, b); ForeignScan(r, b);
    case Between(v, lo, hi) => ForeignScan(v, b); ForeignScan(lo, b); ForeignScan(hi, b);
    case And(l, r) => ForeignScan(l, b); ForeignScan(r, b);
    case Opaque(cs, _) =>
      ForeignScanAll(cs, b);
  }

  lemma {:induction false} ForeignScanAll(es: seq<Expr>, b: Bounds)
    requires forall i :: 0 <= i < |es| ==> !Mentions(es[i], DELIVER_AT) && !Mentions(es[i], QUEUE)
    ensures ScanAll(es, b) == b
    decreases es, 0
  {
    if es != [] {
      ForeignScan(es[0], b);
      ForeignScanAll(es[1..], b);
    }
  }

  /** The last time comparison of a filter, in preorder: it decides the window. */
  function TimeFilterOf(e: Expr): Option<Expr> {
    if IsTimeFilter(e) then Some(e)
    else if e.And? then
      (if TimeFilterOf(e.right).Some? then TimeFilterOf(e.right) else TimeFilterOf(e.left))
    else None
  }

  function TimeFilterOfAll(es: seq<Expr>): Option<Expr> {
    if es == [] then None
    else if TimeFilterOfAll(es[1..]).Some? then TimeFilterOfAll(es[1..])
    else TimeFilterOf(es[0])
  }

  /** The name in the last queue equality: it decides the queue. */
  function QueueOf(e: Expr): Option<Bytes> {
    if IsQueueFilter(e) then Some(e.right.text)
    else if e.And? then (if QueueOf(e.right).Some? then QueueOf(e.right) else QueueOf(e.left))
    else None
  }

  function QueueOfAll(es: seq<Expr>): Option<Bytes> {
    if es == [] then None
    else if QueueOfAll(es[1..]).Some? then QueueOfAll(es[1..])
    else QueueOf(es[0])
  }

  /** The bounds once these deciding filters have been seen. */
  function Decided(b: Bounds, time: Option<Expr>, queue: Option<Bytes>): Bounds
    requires time.Some? ==> IsTimeFilter(time.value)
  {
    var c := if time.None? then b
             else b.(start := TimeBounds(time.value).value.0, end := TimeBounds(time.value).value.1);
    if queue.Some? then c.(queue := queue.value, queueFound := true) else c
  }

  lemma {:induction false} TimeFilterIs(e: Expr)
    ensures TimeFilterOf(e).Some? ==> IsTimeFilter(TimeFilterOf(e).value)
  {
    if !IsTimeFilter(e) && e.And? {
      TimeFilterIs(e.left);
      TimeFilterIs(e.right);
    }
  }

  lemma {:induction false} TimeFilterOfAllIs(es: seq<Expr>)
    ensures TimeFilterOfAll(es).Some? ==> IsTimeFilter(TimeFilterOfAll(es).value)
  {
    hide IsTimeFilter;
    if es != [] {
      TimeFilterOfAllIs(es[1..]);
      TimeFilterIs(es[0]);
    }
  }

  lemma HasTimeBounds(e: Expr)
    requires IsTimeFilter(e)
    ensures TimeBounds(e).Some?
  {
  }

  lemma QueueFilterScan(e: Expr, b: Bounds)
    requires IsQueueFilter(e)
    ensures !IsTimeFilter(e) && Scan(e, b) == b.(queue := e.right.text, queueFound := true)
  {
    hide MustTime;
    assert DELIVER_AT[0] != QUEUE[0];
  }

  lemma TimeFilterScan(e: Expr, b: Bounds)
    requires IsTimeFilter(e)
    ensures !IsQueueFilter(e) && Scan(e, b) == Decided(b, Some(e), None)
  {
    hide MustTime;
    assert DELIVER_AT[0] != QUEUE[0];
  }

  /** Walking a filter leaves the bounds of its deciding parts. */
  lemma {:induction false} ScanIs(e: Expr, b: Bounds)
    requires Supported(e)
    ensures TimeFilterOf(e).Some? ==> IsTimeFilter(TimeFilterOf(e).value)
    ensures Scan(e, b) == Decided(b, TimeFilterOf(e), QueueOf(e))
  {
    hide TimeBounds, IsTimeFilter, IsQueueFilter;
    TimeFilterIs(e);
    if IsTimeFilter(e) {
      TimeFilterScan(e, b);
      assert !e.And? by { NotBoth(e); }
    } else if IsQueueFilter(e) {
      QueueFilterScan(e, b);
      assert !e.And? by { NotBoth(e); }
    } else if e.And? {
      ScanIs(e.left, b);
      ScanIs(e.right, Scan(e.left, b));
      AndScan(e, b);
    } else {
      ForeignScan(e, b);
    }
  }

  lemma NotBoth(e: Expr)
    ensures IsTimeFilter(e) || IsQueueFilter(e) ==> !e.And?
  {
  }

  lemma AndScan(e: Expr, b: Bounds)
    requires e.And?
    ensures Scan(e, b) == Scan(e.right, Scan(e.left, b))
  {
  }

  lemma {:induction false} ScanAllIs(es: seq<Expr>, b: Bounds)
    requires AllSupported(es)
    ensures TimeFilterOfAll(es).Some? ==> IsTimeFilter(TimeFilterOfAll(es).value)
    ensures ScanAll(es, b) == Decided(b, TimeFilterOfAll(es), QueueOfAll(es))
  {
    hide Supported, TimeFilterOf, QueueOf, TimeBounds, IsTimeFilter, Scan;
    TimeFilterOfAllIs(es);
    if es != [] {
      ScanIs(es[0], b);
      ScanAllIs(es[1..], Scan(es[0], b));
    }
  }

  /** A row that satisfies a filter satisfies its deciding parts. */
  lemma {:induction false} HoldsForParts(e: Expr, row: Row)
    requires Supported(e) && Holds(e, row)
    ensures TimeFilterOf(e).Some? ==> Holds(TimeFilterOf(e).value, row)
    ensures QueueOf(e).Some? ==> row.queue == QueueOf(e).value
  {
    if IsQueueFilter(e) {
      assert DELIVER_AT[0] != QUEUE[0];
    } else if !IsTimeFilter(e) && e.And? {
      HoldsForParts(e.left, row);
      HoldsForParts(e.right, row);
    }
  }

  lemma {:induction false} AllHoldForParts(es: seq<Expr>, row: Row)
    requires AllSupported(es) && AllHold(es, row)
    ensures TimeFilterOfAll(es).Some? ==> Holds(TimeFilterOfAll(es).value, row)
    ensures QueueOfAll(es).Some? ==> row.queue == QueueOfAll(es).value
  {
    hide Supported, Holds, TimeFilterOf, QueueOf;
    if es != [] {
      HoldsForParts(es[0], row);
      AllHoldForParts(es[1..], row);
    }
  }

  /** The bounds are those of the deciding time comparison and queue equality. */
  lemma BoundsAre(filters: seq<Expr>, b: Bounds)
    requires AllSupported(filters) && InitBounds(filters) == Some(b)
    ensures
      var time := TimeFilterOfAll(filters);
      && time.Some? && IsTimeFilter(time.value) && QueueOfAll(filters) == Some(b.queue)
      && TimeBounds(time.value) == Some((b.start, b.end))
  {
    hide TimeBounds, IsTimeFilter, Supported, ScanAll;
    ScanAllIs(filters, UNSET);
    if TimeFilterOfAll(filters).Some? { HasTimeBounds(TimeFilterOfAll(filters).value); }
  }

  // ---------- Rows ----------

  /** Scheduled tasks carry their time in their id. */
  ghost predicate TimesMatch(kv: KV) {
    forall t :: Stored(kv, t) && t.scheduleTime.Some? ==>
      Schedulable(t.scheduleTime.value) && TimeBits(IdOf(t)) == t.scheduleTime.value
  }

  /** The rows the iterator returns. */
  function Rows(tasks: seq<Task>, filters: seq<Expr>): seq<Task> {
    if tasks == [] then []
    else if AllHold(filters, RowOf(tasks[0])) then [tasks[0]] + Rows(tasks[1..], filters)
    else Rows(tasks[1..], filters)
  }

  lemma {:induction false} RowsAre(tasks: seq<Task>, filters: seq<Expr>)
    ensures forall t :: t in Rows(tasks, filters) <==> t in tasks && AllHold(filters, RowOf(t))
  {
    hide AllHold;
    if tasks != [] { RowsAre(tasks[1..], filters); }
  }

  lemma {:induction false} RowsAscend(tasks: seq<Task>, filters: seq<Expr>)
    requires AllStorable(tasks) && AscendingRanks(tasks)
    ensures AllStorable(Rows(tasks, filters)) && AscendingRanks(Rows(tasks, filters))
  {
    hide AllHold, Rank, Parse;
    RowsAre(tasks, filters);
    if tasks != [] {
      RowsAscend(tasks[1..], filters);
      RowsAre(tasks[1..], filters);
      forall t | t in tasks[1..] ensures Rank(tasks[0]) < Rank(t) {
        var i :| 1 <= i < |tasks| && tasks[i] == t;
      }
    }
  }

  // ---------- What the range misses ----------

  /** A stored task of the queue lies outside the key range: before its start or behind its end. */
  predicate Missed(t: Task, b: Bounds)
    requires Storable(t)
  {
    Number(IdOf(t)) < UnixBits(b.start) * TWO64 || Number(IdOf(t)) > UnixBits(b.end) * TWO64
  }

  lemma MissedIsOutOfBounds(t: Task, b: Bounds)
    requires Storable(t) && t.scheduleTime.Some?
    ensures RangeOf(b).ScheduledRange? && RangeOf(b).queue == b.queue
    ensures InBounds(t, RangeOf(b)) <==> !Missed(t, b)
  {
    hide Parse, New, TimeBits, Index, Number, ToBE;
    NewParts(b.start, 0);
    NewParts(b.end, 0);
  }

  /** For any filters that leave a window: the rows are exactly the stored scheduled tasks of the queue they
      leave that satisfy all filters and are not missed, once each and in id order. */
  lemma RowsAreExactly(kv: KV, filters: seq<Expr>, b: Bounds)
    requires WellFormed(kv) && Apart(kv, b.queue, true) && InitBounds(filters) == Some(b)
    ensures
      var rows := Rows(Visited(kv, RangeOf(b)), filters);
      && AllStorable(rows) && AscendingRanks(rows)
      && forall t :: t in rows <==>
           && Stored(kv, t) && t.queue == b.queue && t.scheduleTime.Some? && AllHold(filters, RowOf(t))
           && !Missed(t, b)
  {
    hide Parse, Visited, WellFormed, Apart, AllHold, InitBounds, TaskKey, Rank, InBounds, Missed, Rows, RangeOf;
    var r := RangeOf(b);
    RangeQueue(b);
    IterationRefinesFilterAndSort(kv, r);
    RowsAscend(Visited(kv, r), filters);
    RowsAre(Visited(kv, r), filters);
    forall t | Stored(kv, t) && t.scheduleTime.Some? ensures InBounds(t, r) <==> !Missed(t, b) {
      MissedIsOutOfBounds(t, b);
    }
  }

  /** When the filters are conjunctions of comparisons and other tests, only tasks of that queue satisfy
      them, so that no task is lost but the missed ones, whatever times the filters mention. */
  lemma RowsMissExactly(kv: KV, filters: seq<Expr>, b: Bounds)
    requires WellFormed(kv) && Apart(kv, b.queue, true) && AllSupported(filters) && InitBounds(filters) == Some(b)
    ensures
      var rows := Rows(Visited(kv, RangeOf(b)), filters);
      && AllStorable(rows) && AscendingRanks(rows)
      && forall t :: t in rows <==>
           Stored(kv, t) && t.scheduleTime.Some? && AllHold(filters, RowOf(t)) && !Missed(t, b)
  {
    hide Parse, Visited, WellFormed, Apart, AllHold, AllSupported, InitBounds, TaskKey, Rank, Missed, Rows, RangeOf;
    RowsAreExactly(kv, filters, b);
    BoundsAre(filters, b);
    forall t | AllHold(filters, RowOf(t)) ensures t.queue == b.queue { AllHoldForParts(filters, RowOf(t)); }
  }

  lemma RangeQueue(b: Bounds)
    ensures RangeOf(b).ScheduledRange? && RangeOf(b).queue == b.queue
  {
  }

  /** A task that carries its time is missed when its time is before the wrapped start, after the
      wrapped end, or at it with an index above 0. */
  lemma MissedByTime(t: Task, b: Bounds)
    requires Storable(t) && t.scheduleTime.Some? && TimeBits(IdOf(t)) == t.scheduleTime.value
    ensures
      var time, end := t.scheduleTime.value, UnixBits(b.end);
      Missed(t, b) <==> time < UnixBits(b.start) || time > end || (time == end && Index(IdOf(t)) > 0)
  {
    hide Parse, New, TimeBits, Index, Number, ToBE;
    NumberParts(IdOf(t));
  }

  // ---------- Windows that miss nothing ----------

  const FIRST_TIME: int := 0x100_0000_0000_0000

  /** The comparison itself, on a time. */
  predicate Admits(e: Expr, time: int)
    requires IsTimeFilter(e)
  {
    if e.Compare? then Compares(e.op, time, e.right.time.value)
    else e.lower.time.value <= time <= e.upper.time.value
  }

  /** The closed condition on the times of a comparison: no task it admits is missed. The times of
      tasks lie from `FIRST_TIME` up to 2^63; those of the comparison wrap around at 2^64. */
  predicate Lossless(e: Expr)
    requires IsTimeFilter(e)
  {
    if e.Between? then
      var lo, hi := e.lower.time.value, e.upper.time.value;
      || hi < FIRST_TIME || lo >= TWO63 || hi < lo
      || ((lo >= 0 || UnixBits(lo) <= FIRST_TIME) && hi >= TWO63 && UnixBits(hi) >= TWO63)
    else
      var t := e.right.time.value;
      match e.op
      case Greater => t >= 0 || UnixBits(t) <= FIRST_TIME
      case GreaterOrEqual => t >= 0 || UnixBits(t) <= FIRST_TIME
      case LessThan => t < TWO64 || UnixBits(t) >= TWO63
      case LessOrEqual => t < FIRST_TIME || UnixBits(t) >= TWO63
      case Equal => !(FIRST_TIME <= t < TWO63)
  }

  /** The window of the comparison, wrapped around, reaches this time. */
  predicate Reached(e: Expr, time: int)
    requires IsTimeFilter(e)
  {
    UnixBits(TimeBounds(e).value.0) <= time < UnixBits(TimeBounds(e).value.1)
  }

  lemma BitsOf(t: int)
    ensures 0 <= t < TWO64 ==> UnixBits(t) == t
    ensures UnixBits(MustTime(MAX)) >= TWO63 && UnixBits(MustTime(MIN)) == 0
  {
    hide MustTime, MAX, MIN;
    Ends();
    WrappedEnd();
  }

  lemma WrappedEnd()
    ensures UnixBits(-1_000_000_000) >= TWO63
  {
  }

  /** The times of the largest and least id: the first wraps to a second before the epoch. */
  lemma Ends()
    ensures MustTime(MAX) == -1_000_000_000 && MustTime(MIN) == 0
  {
    hide ToBE;
    DefaultFifoCheckpoint();
    MinTime();
  }

  lemma MinTime()
    ensures MustTime(MIN) == 0
  {
    hide ToBE;
    var t :| t == 0;
    NewParts(t, 0);
  }

  lemma LosslessReaches(e: Expr, time: int)
    requires IsTimeFilter(e) && Lossless(e) && Admits(e, time) && Schedulable(time)
    ensures Reached(e, time)
  {
    hide MustTime, UnixBits;
    if e.Between? {
      BitsOf(e.lower.time.value);
      BitsOf(e.upper.time.value);
    } else {
      BitsOf(e.right.time.value);
    }
  }

  /** A comparison that is not lossless admits a time that its window does not reach. */
  lemma LossyMisses(e: Expr) returns (time: int)
    requires IsTimeFilter(e) && !Lossless(e)
    ensures Schedulable(time) && Admits(e, time) && !Reached(e, time)
  {
    hide MustTime, UnixBits;
    if e.Between? {
      var lo, hi := e.lower.time.value, e.upper.time.value;
      BitsOf(lo);
      BitsOf(hi);
      if lo < 0 && UnixBits(lo) > FIRST_TIME {
        time := FIRST_TIME;
      } else if hi < TWO63 {
        time := hi;
      } else {
        time := Later(Later(FIRST_TIME, lo), UnixBits(hi));
      }
    } else {
      var t := e.right.time.value;
      BitsOf(t);
      time := match e.op
        case Greater => FIRST_TIME
        case GreaterOrEqual => FIRST_TIME
        case LessThan => Later(FIRST_TIME, UnixBits(t))
        case LessOrEqual => if t < TWO63 then t else Later(FIRST_TIME, UnixBits(t))
        case Equal => t;
    }
  }

  function Later(a: int, b: int): int { if a < b then b else a }

  /** A store this program wrote, whose scheduled tasks carry their times. */
  ghost predicate GoodStore(kv: KV, queue: Bytes) { WellFormed(kv) && Apart(kv, queue, true) && TimesMatch(kv) }

  lemma GoodStoreIs(kv: KV, queue: Bytes)
    requires GoodStore(kv, queue)
    ensures WellFormed(kv) && Apart(kv, queue, true)
  {
  }

  /** The query returns every stored scheduled task that satisfies its filters. */
  ghost predicate NothingMissing(kv: KV, filters: seq<Expr>, b: Bounds) {
    forall t :: Stored(kv, t) && t.scheduleTime.Some? && AllHold(filters, RowOf(t)) ==>
      t in Rows(Visited(kv, RangeOf(b)), filters)
  }

  /** Pushing the filters down keeps the meaning of the query: the rows are the stored scheduled tasks
      that satisfy all filters, in id order and once each, whenever the comparison that decides the
      window is lossless. */
  lemma PushDownKeepsMeaning(kv: KV, filters: seq<Expr>, b: Bounds)
    requires GoodStore(kv, b.queue) && AllSupported(filters) && InitBounds(filters) == Some(b)
    ensures
      var rows, time := Rows(Visited(kv, RangeOf(b)), filters), TimeFilterOfAll(filters);
      && AllStorable(rows) && AscendingRanks(rows) && time.Some? && IsTimeFilter(time.value)
      && (forall t :: t in rows ==> Stored(kv, t) && t.scheduleTime.Some? && AllHold(filters, RowOf(t)))
      && (Lossless(time.value) ==> NothingMissing(kv, filters, b))
  {
    hide Parse, Visited, WellFormed, Apart, AllHold, AllSupported, InitBounds, TaskKey, Rank, InBounds, Missed, Rows,
      RangeOf, TimeBits, Lossless, TimeBounds, IsTimeFilter, UnixBits, TimeFilterOfAll;
    RowsMissExactly(kv, filters, b);
    BoundsAre(filters, b);
    var e := TimeFilterOfAll(filters).value;
    if Lossless(e) {
      forall t | Stored(kv, t) && t.scheduleTime.Some? && AllHold(filters, RowOf(t)) ensures !Missed(t, b) {
        AllHoldForParts(filters, RowOf(t));
        HoldsIsAdmits(e, RowOf(t));
        LosslessReaches(e, t.scheduleTime.value);
        MissedByTime(t, b);
      }
    }
  }

  lemma HoldsIsAdmits(e: Expr, row: Row)
    requires IsTimeFilter(e)
    ensures Holds(e, row) <==> Admits(e, row.deliverAt)
  {
  }

  /** A store with one scheduled task. */
  lemma OneTaskStore(queue: Bytes, time: int) returns (t: Task, kv: KV)
    requires Schedulable(time)
    ensures GoodStore(kv, queue) && Stored(kv, t) && (forall u :: Stored(kv, u) ==> u == t)
    ensures t.queue == queue && t.scheduleTime == Some(time) && TimeBits(IdOf(t)) == time && Index(IdOf(t)) == 1
  {
    hide Parse, Show, New, Index, TimeBits, ToBE;
    t := Task(Show(New(time, 1)), queue, map[], [], Some(time), None, 0);
    UsualIdsRoundTrip(time, 1);
    NewParts(time, 1);
    assert UnixBits(time) == time;
    kv := map[TaskKey(t) := TaskValue(t)];
  }

  /** The query has this window, and the comparison decides it. */
  ghost predicate DecidedBy(filters: seq<Expr>, b: Bounds, e: Expr) {
    AllSupported(filters) && InitBounds(filters) == Some(b) && TimeFilterOfAll(filters) == Some(e)
  }

  /** No query that the comparison decides ever misses a row, whatever is stored. */
  ghost predicate NeverLoses(e: Expr) {
    forall kv, filters, b: Bounds ::
      GoodStore(kv, b.queue) && DecidedBy(filters, b, e) ==> NothingMissing(kv, filters, b)
  }

  /** The simplest query that a comparison decides. */
  function SimpleQuery(queue: Bytes, e: Expr): seq<Expr> {
    [Compare(Equal, Field(QUEUE), Literal(queue, None)), e]
  }

  lemma SimpleQueryBounds(queue: Bytes, e: Expr)
    requires IsTimeFilter(e) && TimeBounds(e).value.0 != ZERO_TIME && TimeBounds(e).value.1 != ZERO_TIME
    ensures AllSupported(SimpleQuery(queue, e)) && TimeFilterOfAll(SimpleQuery(queue, e)) == Some(e)
    ensures InitBounds(SimpleQuery(queue, e))
            == Some(Bounds(TimeBounds(e).value.0, TimeBounds(e).value.1, queue, true))
  {
    hide IsTimeFilter, TimeBounds, Scan;
    var f := SimpleQuery(queue, e)[0];
    assert IsQueueFilter(f);
    QueueFilterScan(f, UNSET);
    TimeFilterScan(e, Scan(f, UNSET));
    assert SimpleQuery(queue, e)[1..] == [e] && [e][1..] == [];
    assert ScanAll([e], Scan(f, UNSET)) == Scan(e, Scan(f, UNSET));
    assert TimeFilterOfAll([]) == None && TimeFilterOfAll([e]) == Some(e);
    HasTimeBounds(e);
  }

  lemma LossyLoses(queue: Bytes, e: Expr)
    requires IsTimeFilter(e) && !Lossless(e) && TimeBounds(e).value.0 != ZERO_TIME && TimeBounds(e).value.1 != ZERO_TIME
    ensures !NeverLoses(e)
  {
    hide Parse, Visited, AllSupported, InitBounds, TaskKey, Rank, InBounds, Missed, Rows, RangeOf, TimeBits, Lossless,
      TimeBounds, IsTimeFilter, UnixBits, TimeFilterOfAll, GoodStore, Index, Admits;
    HasTimeBounds(e);
    var time := LossyMisses(e);
    var t, kv := OneTaskStore(queue, time);
    var filters := SimpleQuery(queue, e);
    SimpleQueryBounds(queue, e);
    var b := Bounds(TimeBounds(e).value.0, TimeBounds(e).value.1, queue, true);
    GoodStoreIs(kv, queue);
    RowsMissExactly(kv, filters, b);
    MissedByTime(t, b);
    HoldsIsAdmits(e, RowOf(t));
    assert AllHold(filters, RowOf(t));
    assert !NothingMissing(kv, filters, b);
  }

  /** The exact condition: no store and no query that the comparison decides loses a row if and only if
      the comparison is lossless. */
  lemma LosslessExactly(e: Expr)
    requires IsTimeFilter(e) && TimeBounds(e).value.0 != ZERO_TIME && TimeBounds(e).value.1 != ZERO_TIME
    ensures Lossless(e) <==> NeverLoses(e)
  {
    hide Lossless, IsTimeFilter, TimeBounds, NothingMissing, GoodStore, AllSupported, InitBounds, TimeFilterOfAll;
    if Lossless(e) {
      forall kv, filters, b: Bounds | GoodStore(kv, b.queue) && DecidedBy(filters, b, e)
        ensures NothingMissing(kv, filters, b)
      {
        PushDownKeepsMeaning(kv, filters, b);
      }
    } else {
      LossyLoses([], e);
    }
  }

  // ---------- Windows that find nothing ----------

  /** Task indexes start at 1. */
  ghost predicate Indexed(kv: KV) { forall t :: Stored(kv, t) ==> Index(IdOf(t)) > 0 }

  /** The window finds nothing in any store. */
  ghost predicate FindsNothing(b: Bounds) {
    forall kv, t :: GoodStore(kv, b.queue) && Indexed(kv) ==> t !in Visited(kv, RangeOf(b))
  }

  lemma Unreached(kv: KV, b: Bounds, t: Task)
    requires GoodStore(kv, b.queue) && Indexed(kv)
    requires Later(FIRST_TIME, UnixBits(b.start)) >= TWO63 || Later(FIRST_TIME, UnixBits(b.start)) >= UnixBits(b.end)
    ensures t !in Visited(kv, RangeOf(b))
  {
    hide Parse, Visited, WellFormed, Apart, InBounds, TaskKey, TimeBits, RangeOf, Index, Missed, UnixBits;
    var r := RangeOf(b);
    RangeQueue(b);
    IterationRefinesFilterAndSort(kv, r);
    forall u | Stored(kv, u) && OfRange(u, r) ensures !InBounds(u, r) {
      MissedIsOutOfBounds(u, b);
      MissedByTime(u, b);
    }
  }

  /** The exact condition: a window, wrapped around, finds nothing in any store if and only if no time
      of a task lies between its ends. So it is for every window that starts between 1677 and 1970, and
      for every time equality. */
  lemma FindsNothingExactly(b: Bounds)
    ensures FindsNothing(b) <==>
            Later(FIRST_TIME, UnixBits(b.start)) >= TWO63 || Later(FIRST_TIME, UnixBits(b.start)) >= UnixBits(b.end)
  {
    hide Parse, Visited, InBounds, TaskKey, TimeBits, RangeOf, Index, Missed, UnixBits, GoodStore, WellFormed, Apart,
      Indexed, Stored;
    var first := Later(FIRST_TIME, UnixBits(b.start));
    if first >= TWO63 || first >= UnixBits(b.end) {
      forall kv, t | GoodStore(kv, b.queue) && Indexed(kv) ensures t !in Visited(kv, RangeOf(b)) {
        Unreached(kv, b, t);
      }
    } else {
      var kv, t := Found(b, first);
    }
  }

  lemma Found(b: Bounds, time: int) returns (kv: KV, t: Task)
    requires Schedulable(time) && UnixBits(b.start) <= time < UnixBits(b.end)
    ensures GoodStore(kv, b.queue) && Indexed(kv) && t in Visited(kv, RangeOf(b))
  {
    hide Parse, Visited, InBounds, TaskKey, TimeBits, RangeOf, Index, Missed, UnixBits, WellFormed, Apart;
    t, kv := OneTaskStore(b.queue, time);
    RangeQueue(b);
    IterationRefinesFilterAndSort(kv, RangeOf(b));
    MissedIsOutOfBounds(t, b);
    MissedByTime(t, b);
  }

  /** An open window that starts before the epoch finds nothing if and only if its start wraps around
      to 2262 or later, as it does from 1677 on. */
  lemma PreEpochWindowFindsNothing(b: Bounds)
    requires b.start < 0 && b.end == MustTime(MAX)
    ensures FindsNothing(b) <==> UnixBits(b.start) >= TWO63
  {
    hide FindsNothing, MustTime, UnixBits;
    BitsOf(b.start);
    FindsNothingExactly(b);
  }

  /** A query whose window a time equality decides finds nothing, wherever the equality stands. */
  lemma EqualityFindsNothing(filters: seq<Expr>, b: Bounds)
    requires AllSupported(filters) && InitBounds(filters) == Some(b)
    requires
      var time := TimeFilterOfAll(filters);
      time.Some? && time.value.Compare? && time.value.op.Equal?
    ensures FindsNothing(b)
  {
    hide AllSupported, InitBounds, TimeFilterOfAll, FindsNothing, UnixBits, MustTime;
    BoundsAre(filters, b);
    FindsNothingExactly(b);
  }

  // ---------- Filters on other columns ----------

  /** A test of one of the columns that decide no range. */
  datatype ColumnTest =
    | OnId(id: string -> bool)
    | OnLastRetry(lastRetry: Option<int> -> bool)
    | OnMetadata(metadata: map<string, string> -> bool)
    | OnPayload(payload: Bytes -> bool)

  /** The filter that applies the test to its column. */
  function ColumnFilter(c: ColumnTest): Expr {
    match c
    case OnId(test) => Opaque([Field("id")], (row: Row) => test(row.id))
    case OnLastRetry(test) => Opaque([Field("last_retry")], (row: Row) => test(row.lastRetry))
    case OnMetadata(test) => Opaque([Field("metadata")], (row: Row) => test(row.metadata))
    case OnPayload(test) => Opaque([Field("payload")], (row: Row) => test(row.payload))
  }

  /** The test holds of the stored record. */
  predicate Passes(c: ColumnTest, t: Task) {
    match c
    case OnId(test) => test(t.id)
    case OnLastRetry(test) => test(t.lastRetry)
    case OnMetadata(test) => test(t.metadata)
    case OnPayload(test) => test(t.payload)
  }

  function Passing(tasks: seq<Task>, c: ColumnTest): seq<Task> {
    if tasks == [] then []
    else if Passes(c, tasks[0]) then [tasks[0]] + Passing(tasks[1..], c)
    else Passing(tasks[1..], c)
  }

  lemma {:induction false} PassingAre(tasks: seq<Task>, c: ColumnTest)
    ensures forall t :: t in Passing(tasks, c) <==> t in tasks && Passes(c, t)
  {
    hide Passes;
    if tasks != [] { PassingAre(tasks[1..], c); }
  }

  lemma {:induction false} ScanAllConcat(a: seq<Expr>, b: seq<Expr>, bounds: Bounds)
    ensures ScanAll(a + b, bounds) == ScanAll(b, ScanAll(a, bounds))
  {
    hide Scan;
    if a == [] {
      assert a + b == b;
    } else {
      ScanAllConcat(a[1..], b, Scan(a[0], bounds));
      assert (a + b)[1..] == a[1..] + b;
    }
  }

  lemma ColumnScan(c: ColumnTest, b: Bounds)
    ensures Scan(ColumnFilter(c), b) == b
  {
    hide Scan;
    var e := ColumnFilter(c);
    assert "id"[0] != DELIVER_AT[0] && "last_retry"[0] != DELIVER_AT[0] && "metadata"[0] != DELIVER_AT[0];
    assert "payload"[0] != DELIVER_AT[0];
    assert "id"[0] != QUEUE[0] && "last_retry"[0] != QUEUE[0] && "metadata"[0] != QUEUE[0] && "payload"[0] != QUEUE[0];
    ForeignScan(e, b);
  }

  lemma HoldsWith(before: seq<Expr>, after: seq<Expr>, c: ColumnTest, t: Task)
    ensures AllHold(before + [ColumnFilter(c)] + after, RowOf(t)) <==> AllHold(before + after, RowOf(t)) && Passes(c, t)
  {
    hide Holds;
    var e, with, without := ColumnFilter(c), before + [ColumnFilter(c)] + after, before + after;
    assert Holds(e, RowOf(t)) <==> Passes(c, t) by { ColumnHolds(c, t); }
    if AllHold(with, RowOf(t)) {
      assert Holds(with[|before|], RowOf(t));
      forall i | 0 <= i < |without| ensures Holds(without[i], RowOf(t)) {
        assert without[i] == with[if i < |before| then i else i + 1];
      }
    }
    if AllHold(without, RowOf(t)) && Passes(c, t) {
      forall i | 0 <= i < |with| ensures Holds(with[i], RowOf(t)) {
        if i != |before| { assert with[i] == without[if i < |before| then i else i - 1]; }
      }
    }
  }

  lemma ColumnHolds(c: ColumnTest, t: Task)
    ensures Holds(ColumnFilter(c), RowOf(t)) <==> Passes(c, t)
  {
  }

  lemma {:induction false} RowsWith(tasks: seq<Task>, before: seq<Expr>, after: seq<Expr>, c: ColumnTest)
    ensures Rows(tasks, before + [ColumnFilter(c)] + after) == Passing(Rows(tasks, before + after), c)
  {
    hide AllHold, Passes, ColumnFilter;
    if tasks != [] {
      RowsWith(tasks[1..], before, after, c);
      HoldsWith(before, after, c, tasks[0]);
      var rest := Rows(tasks[1..], before + after);
      assert ([tasks[0]] + rest)[1..] == rest;
    }
  }

  /** A filter on the id, the last retry, the metadata or the payload, added anywhere to a query: the window
      stays the same, and the rows are those of the query without it whose stored record passes the
      test, in the same order. */
  lemma ColumnFiltersKeepMeaning(kv: KV, before: seq<Expr>, after: seq<Expr>, c: ColumnTest)
    ensures InitBounds(before + [ColumnFilter(c)] + after) == InitBounds(before + after)
    ensures InitBounds(before + after).Some? ==>
              var tasks := Yield(kv, Window(kv, RangeOf(InitBounds(before + after).value)));
              var rows, with := Rows(tasks, before + after), Rows(tasks, before + [ColumnFilter(c)] + after);
              with == Passing(rows, c) && forall t :: t in with <==> t in rows && Passes(c, t)
  {
    hide Scan, ColumnFilter, Rows, Passing, Yield, Window, RangeOf;
    var e := ColumnFilter(c);
    var b := ScanAll(before, UNSET);
    ScanAllConcat(before + [e], after, UNSET);
    ScanAllConcat(before, [e], UNSET);
    ScanAllConcat(before, after, UNSET);
    ColumnScan(c, b);
    assert ScanAll([e], b) == ScanAll([], Scan(e, b)) by { assert [e][1..] == []; }
    if InitBounds(before + after).Some? {
      var tasks := Yield(kv, Window(kv, RangeOf(InitBounds(before + after).value)));
      RowsWith(tasks, before, after, c);
      PassingAre(Rows(tasks, before + after), c);
    }
  }

  // ---------- Any filters at all ----------

  /** A comparison or BETWEEN with the time column somewhere on its left. */
  ghost predicate IsTimeNode(e: Expr) {
    || (e.Compare? && Field(DELIVER_AT) in Leaves(e.left))
    || (e.Between? && Field(DELIVER_AT) in Leaves(e.val))
  }

  /** Any other equality with the queue column somewhere on its left. */
  ghost predicate IsQueueNode(e: Expr) {
    e.Compare? && e.op.Equal? && !IsTimeNode(e) && Field(QUEUE) in Leaves(e.left)
  }

  /** The nodes that set bounds, in the order of the walk, which goes no deeper below one of them. */
  ghost function Deciders(e: Expr): seq<Expr>
    decreases e, 1
  {
    if IsTimeNode(e) || IsQueueNode(e) then [e]
    else
      match e
      case Field(_) => []
      case Literal(_, _) => []
      case Compare(_, l, r) => Deciders(l) + Deciders(r)
      case Between(v, lo, hi) => Deciders(v) + Deciders(lo) + Deciders(hi)
      case And(l, r) => Deciders(l) + Deciders(r)
      case Opaque(cs, _) => DecidersAll(cs)
  }

  ghost function DecidersAll(es: seq<Expr>): seq<Expr>
    decreases es, 0
  {
    if es == [] then [] else Deciders(es[0]) + DecidersAll(es[1..])
  }

  /** The times a node sets: the first ones of its parts, from the epoch on or up to a second before it. */
  ghost function WindowOf(e: Expr): (int, int)
    requires IsTimeNode(e)
  {
    if e.Between? then (FirstTime(Leaves(e.lower)), FirstTime(Leaves(e.upper)))
    else
      var t := FirstTime(Leaves(e.right));
      match e.op
      case Greater => (t, -1_000_000_000)
      case GreaterOrEqual => (t, -1_000_000_000)
      case LessThan => (0, t)
      case LessOrEqual => (0, t)
      case Equal => (t, t)
  }

  ghost function Decide(b: Bounds, e: Expr): Bounds {
    if IsTimeNode(e) then b.(start := WindowOf(e).0, end := WindowOf(e).1)
    else if IsQueueNode(e) then b.(queue := FirstText(Leaves(e.right)), queueFound := true)
    else b
  }

  ghost function DecideAll(b: Bounds, nodes: seq<Expr>): Bounds {
    if nodes == [] then b else Decide(DecideAll(b, nodes[..|nodes| - 1]), nodes[|nodes| - 1])
  }

  lemma {:induction false} DecideBoth(b: Bounds, x: seq<Expr>, y: seq<Expr>)
    ensures DecideAll(b, x + y) == DecideAll(DecideAll(b, x), y)
  {
    hide Decide;
    if y == [] {
      assert x + y == x;
    } else {
      DecideBoth(b, x, y[..|y| - 1]);
      assert (x + y)[..|x + y| - 1] == x + y[..|y| - 1];
    }
  }

  lemma NodeScan(e: Expr, b: Bounds)
    ensures IsTimeNode(e) || IsQueueNode(e) ==> Scan(e, b) == DecideAll(b, [e])
    ensures IsTimeNode(e) <==> TimeBounds(e).Some?
    ensures IsQueueNode(e) <==> TimeBounds(e).None? && e.Compare? && e.op.Equal? && Mentions(e.left, QUEUE)
  {
    hide MustTime, Leaves, Mentions, TimeIn, TextIn, FirstTime, FirstText;
    Ends();
    assert DecideAll(b, [e]) == Decide(b, e) by { assert [e][..0] == []; }
    if e.Between? {
      MentionsIsLeaf(e.val, DELIVER_AT);
      WalksFindFirst(e.lower, ZERO_TIME, []);
      WalksFindFirst(e.upper, ZERO_TIME, []);
    } else if e.Compare? {
      MentionsIsLeaf(e.left, DELIVER_AT);
      MentionsIsLeaf(e.left, QUEUE);
      WalksFindFirst(e.right, ZERO_TIME, []);
    }
  }

  lemma {:induction false} ScanDecides(e: Expr, b: Bounds)
    ensures Scan(e, b) == DecideAll(b, Deciders(e))
    decreases e, 1
  {
    hide TimeBounds, IsTimeNode, IsQueueNode, Decide, Mentions;
    NodeScan(e, b);
    if !IsTimeNode(e) && !IsQueueNode(e) {
      match e
      case Field(_) =>
      case Literal(_, _) =>
      case Compare(_, l, r) =>
        ScanDecides(l, b);
        ScanDecides(r, Scan(l, b));
        DecideBoth(b, Deciders(l), Deciders(r));
      case Between(v, lo, hi) =>
        ScanDecides(v, b);
        ScanDecides(lo, Scan(v, b));
        ScanDecides(hi, Scan(lo, Scan(v, b)));
        DecideBoth(b, Deciders(v), Deciders(lo));
        DecideBoth(b, Deciders(v) + Deciders(lo), Deciders(hi));
      case And(l, r) =>
        ScanDecides(l, b);
        ScanDecides(r, Scan(l, b));
        DecideBoth(b, Deciders(l), Deciders(r));
      case Opaque(cs, _) => ScanAllDecides(cs, b);
    }
  }

  lemma {:induction false} ScanAllDecides(es: seq<Expr>, b: Bounds)
    ensures ScanAll(es, b) == DecideAll(b, DecidersAll(es))
    decreases es, 0
  {
    hide Scan, Deciders, Decide;
    if es != [] {
      ScanDecides(es[0], b);
      ScanAllDecides(es[1..], Scan(es[0], b));
      DecideBoth(b, Deciders(es[0]), DecidersAll(es[1..]));
    }
  }

  ghost predicate LastTimeNode(nodes: seq<Expr>, i: int) {
    0 <= i < |nodes| && IsTimeNode(nodes[i]) && forall j :: i < j < |nodes| ==> !IsTimeNode(nodes[j])
  }

  ghost predicate LastQueueNode(nodes: seq<Expr>, i: int) {
    0 <= i < |nodes| && IsQueueNode(nodes[i]) && forall j :: i < j < |nodes| ==> !IsQueueNode(nodes[j])
  }

  /** The bounds have the window of this node. */
  ghost predicate LastTimeSets(nodes: seq<Expr>, i: int, b: Bounds)
    requires LastTimeNode(nodes, i)
  {
    b.start == WindowOf(nodes[i]).0 && b.end == WindowOf(nodes[i]).1
  }

  /** The bounds have the queue of this node. */
  ghost predicate LastQueueSets(nodes: seq<Expr>, i: int, b: Bounds)
    requires LastQueueNode(nodes, i)
  {
    b.queueFound && b.queue == FirstText(Leaves(nodes[i].right))
  }

  lemma DecideIs(b: Bounds, e: Expr)
    ensures
      var after := Decide(b, e);
      && (if IsTimeNode(e) then after.start == WindowOf(e).0 && after.end == WindowOf(e).1
          else after.start == b.start && after.end == b.end)
      && (if IsQueueNode(e) then after.queueFound && after.queue == FirstText(Leaves(e.right))
          else after.queueFound == b.queueFound && after.queue == b.queue)
  {
    hide WindowOf, Leaves, FirstText;
  }

  lemma DecideLast(b: Bounds, nodes: seq<Expr>)
    requires nodes != []
    ensures DecideAll(b, nodes) == Decide(DecideAll(b, nodes[..|nodes| - 1]), nodes[|nodes| - 1])
  {
    hide Decide;
  }

  lemma {:induction false} LastTimeDecides(b: Bounds, nodes: seq<Expr>, i: int)
    requires LastTimeNode(nodes, i)
    ensures DecideAll(b, nodes).start == WindowOf(nodes[i]).0 && DecideAll(b, nodes).end == WindowOf(nodes[i]).1
  {
    hide IsTimeNode, IsQueueNode, WindowOf, Leaves, FirstText, Decide, DecideAll;
    var rest := nodes[..|nodes| - 1];
    DecideLast(b, nodes);
    DecideIs(DecideAll(b, rest), nodes[|nodes| - 1]);
    if i < |rest| { LastTimeDecides(b, rest, i); }
  }

  lemma {:induction false} LastQueueDecides(b: Bounds, nodes: seq<Expr>, i: int)
    requires LastQueueNode(nodes, i)
    ensures nodes[i].Compare? && DecideAll(b, nodes).queueFound
    ensures DecideAll(b, nodes).queue == FirstText(Leaves(nodes[i].right))
  {
    hide IsTimeNode, WindowOf, Leaves, FirstText, Decide, DecideAll;
    var rest := nodes[..|nodes| - 1];
    DecideLast(b, nodes);
    DecideIs(DecideAll(b, rest), nodes[|nodes| - 1]);
    if i < |rest| { LastQueueDecides(b, rest, i); }
  }

  lemma {:induction false} NoneDecides(b: Bounds, nodes: seq<Expr>)
    ensures
      var after := DecideAll(b, nodes);
      && ((forall e :: e in nodes ==> !IsTimeNode(e)) ==> after.start == b.start && after.end == b.end)
      && ((forall e :: e in nodes ==> !IsQueueNode(e)) ==> after.queueFound == b.queueFound)
  {
    hide IsTimeNode, IsQueueNode, WindowOf, Leaves, FirstText, Decide;
    if nodes != [] {
      var rest, last := nodes[..|nodes| - 1], nodes[|nodes| - 1];
      assert last in nodes && forall e :: e in rest ==> e in nodes;
      NoneDecides(b, rest);
      DecideIs(DecideAll(b, rest), last);
    }
  }

  /** The window and the queue that any filters leave, however their expressions are nested: those of the last
      deciding node of each kind. Without such a node the times stay unset, or the queue is not found. */
  lemma BoundsOfAnyFilters(filters: seq<Expr>)
    ensures
      var nodes, b := DecidersAll(filters), ScanAll(filters, UNSET);
      && (forall i :: LastTimeNode(nodes, i) ==> LastTimeSets(nodes, i, b))
      && ((forall e :: e in nodes ==> !IsTimeNode(e)) ==> b.start == ZERO_TIME && b.end == ZERO_TIME)
      && (forall i :: LastQueueNode(nodes, i) ==> LastQueueSets(nodes, i, b))
      && (b.queueFound <==> exists i :: LastQueueNode(nodes, i))
      && InitBounds(filters) == if b.start != ZERO_TIME && b.end != ZERO_TIME && b.queueFound then Some(b) else None
  {
    hide ScanAll, DecidersAll, DecideAll, WindowOf, Leaves, FirstText, IsTimeNode, IsQueueNode, LastTimeNode,
      LastQueueNode;
    ScanAllDecides(filters, UNSET);
    var nodes := DecidersAll(filters);
    forall i | LastTimeNode(nodes, i) ensures LastTimeSets(nodes, i, DecideAll(UNSET, nodes)) {
      LastTimeDecides(UNSET, nodes, i);
    }
    forall i | LastQueueNode(nodes, i) ensures LastQueueSets(nodes, i, DecideAll(UNSET, nodes)) {
      LastQueueDecides(UNSET, nodes, i);
    }
    NoneDecides(UNSET, nodes);
    SomeLastNode(nodes);
  }

  lemma {:induction false} SomeLastNode(nodes: seq<Expr>)
    ensures (exists i :: LastQueueNode(nodes, i)) <==> exists e :: e in nodes && IsQueueNode(e)
  {
    hide IsQueueNode;
    if nodes != [] {
      var rest, last := nodes[..|nodes| - 1], nodes[|nodes| - 1];
      SomeLastNode(rest);
      if IsQueueNode(last) {
        assert LastQueueNode(nodes, |rest|);
      } else if i :| LastQueueNode(rest, i) {
        assert LastQueueNode(nodes, i);
      }
    }
  }

  // ---------- The iterator as an object ----------

  lemma {:induction false} ScanAllSnoc(es: seq<Expr>, e: Expr, b: Bounds)
    ensures ScanAll(es + [e], b) == Scan(e, ScanAll(es, b))
  {
    hide Scan;
    if es == [] {
      assert es + [e] == [e];
    } else {
      ScanAllSnoc(es[1..], e, Scan(es[0], b));
      assert (es + [e])[1..] == es[1..] + [e];
    }
  }

  class TaskTableIterator {
    const filters: seq<Expr>
    const db: Pebble
    var bounds: Bounds

    constructor (filters: seq<Expr>, db: Pebble)
      ensures this.filters == filters && this.db == db && bounds == UNSET
    {
      this.filters := filters;
      this.db := db;
      bounds := UNSET;
    }

    /** Walks the filters in order and opens the range they leave; it fails when they leave none. */
    method Init() returns (it: TaskIterator?)
      requires bounds == UNSET
      modifies this
      ensures it == null <==> InitBounds(filters).None?
      ensures it != null ==>
                && bounds == InitBounds(filters).value && fresh(it) && it.Valid() && it.kv == db.kv
                && it.Rest() == Window(db.kv, RangeOf(bounds))
    {
      hide Scan, Window, TaskIterator.Valid, TaskIterator.Rest;
      for n := 0 to |filters|
        invariant bounds == ScanAll(filters[..n], UNSET)
      {
        bounds := Scan(filters[n], bounds);
        ScanAllSnoc(filters[..n], filters[n], UNSET);
        assert filters[..n + 1] == filters[..n] + [filters[n]];
      }
      assert filters[..|filters|] == filters;
      if bounds.start == ZERO_TIME || bounds.end == ZERO_TIME || !bounds.queueFound {
        return null;
      }
      it := new TaskIterator(db, RangeOf(bounds));
    }

    /** Returns the next task of the range that passes all filters; a value that is not a task ends
        the rows. Calling it until None gives exactly the rows of what the range yields. */
    method Next(it: TaskIterator) returns (t: Option<Task>)
      requires it.Valid()
      modifies it
      ensures it.Valid()
      ensures t.Some? ==>
                && AllHold(filters, RowOf(t.value)) && |it.Rest()| < |old(it.Rest())|
                && Rows(Yield(it.kv, old(it.Rest())), filters) == [t.value] + Rows(Yield(it.kv, it.Rest()), filters)
      ensures t.None? ==> Rows(Yield(it.kv, old(it.Rest())), filters) == []
    {
      hide AllHold, TaskIterator.Valid, TaskIterator.Rest;
      while true
        invariant it.Valid()
        invariant Rows(Yield(it.kv, it.Rest()), filters) == Rows(Yield(it.kv, old(it.Rest())), filters)
        invariant |it.Rest()| <= |old(it.Rest())|
        decreases |it.Rest()|
      {
        ghost var keys := it.Rest();
        var item := it.Next();
        if !item.Ok? {
          return None;
        }
        assert Yield(it.kv, keys) == [item.task] + Yield(it.kv, keys[1..]);
        if AllHold(filters, RowOf(item.task)) {
          return Some(item.task);
        }
      }
    }
  }

  /** A whole query, row by row until there is none left. It fails when the filters leave no range; else
      it returns the rows of what the range yields, which in a store this program wrote is all that the
      range holds. */
  method Query(filters: seq<Expr>, db: Pebble) returns (ok: bool, rows: seq<Task>)
    ensures ok <==> InitBounds(filters).Some?
    ensures ok ==>
              var r := RangeOf(InitBounds(filters).value);
              && rows == Rows(Yield(db.kv, Window(db.kv, r)), filters)
              && (WellFormed(db.kv) && Apart(db.kv, r.queue, true) ==> rows == Rows(Visited(db.kv, r), filters))
  {
    hide InitBounds, Rows, Yield, Window, RangeOf, WellFormed, Apart, Visited, AllHold, TaskIterator.Valid,
      TaskIterator.Rest;
    var table := new TaskTableIterator(filters, db);
    var it := table.Init();
    rows := [];
    if it == null {
      return false, rows;
    }
    ghost var r := RangeOf(InitBounds(filters).value);
    ghost var all := Rows(Yield(db.kv, Window(db.kv, r)), filters);
    assert rows + all == all;
    while true
      invariant it.Valid() && it.kv == db.kv
      invariant rows + Rows(Yield(it.kv, it.Rest()), filters) == all
      decreases |it.Rest()|
    {
      var t := table.Next(it);
      if t.None? {
        break;
      }
      rows := rows + [t.value];
    }
    if WellFormed(db.kv) && Apart(db.kv, r.queue, true) {
      RangeQueue(InitBounds(filters).value);
      YieldIsVisited(db.kv, r);
    }
    ok := true;
  }
}
