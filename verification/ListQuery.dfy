/** The queries behind List and ListInvocations: what the database makes of them, and what the filter asks for. */
module ListQuery {
  import opened Sets
  import opened Types

  datatype Column = RuntimeColumn | FunctionIdColumn | StatusColumn

  datatype Row = Row(id: Id, createdAt: Time, cells: map<Column, string>)

  function Cell(row: Row, column: Column): Option<string> {
    if column in row.cells then Some(row.cells[column]) else None
  }

  // The text of a query, one clause at a time; $n stands for the n-th argument, counted from one.
  datatype Clause = Where(column: Column, position: nat) | NewestFirst | Limit(position: nat) | Offset(position: nat)

  datatype Arg = Text(text: string) | Number(number: int)

  // ---------- what the database does with a query ----------

  datatype Condition = Condition(column: Column, text: string)

  datatype Plan = Plan(conditions: seq<Condition>, limit: Option<nat>, offset: Option<nat>)

  function Argument(args: seq<Arg>, position: nat): Option<Arg> {
    if 1 <= position <= |args| then Some(args[position - 1]) else None
  }

  // A count must be bound to a number that is not negative.
  function Count(args: seq<Arg>, position: nat): Option<nat> {
    match Argument(args, position)
    case Some(Number(n)) => if n >= 0 then Some(n) else None
    case _ => None
  }

  function Positions(query: seq<Clause>): set<nat> {
    if query == [] then {}
    else (if query[0].NewestFirst? then {} else {query[0].position}) + Positions(query[1..])
  }

  // Conditions come before the order, and what bounds the answer after it; anything else is a syntax error.
  function Compile(query: seq<Clause>, args: seq<Arg>): Option<Plan> {
    if query == [] then None
    else match query[0]
      case Where(column, position) =>
        var rest := Compile(query[1..], args);
        (match Argument(args, position)
         case Some(Text(text)) =>
           if rest.Some? then Some(rest.value.(conditions := [Condition(column, text)] + rest.value.conditions))
             else None
         case _ => None)
      case NewestFirst => CompileBounds(query[1..], args)
      case _ => None
  }

  function CompileBounds(query: seq<Clause>, args: seq<Arg>): Option<Plan> {
    if query == [] then Some(Plan([], None, None))
    else if query[0].Limit? then
      var limit, rest := Count(args, query[0].position), CompileOffset(query[1..], args);
      if limit.Some? && rest.Some? then Some(rest.value.(limit := limit)) else None
    else CompileOffset(query, args)
  }

  function CompileOffset(query: seq<Clause>, args: seq<Arg>): Option<Plan> {
    if query == [] then Some(Plan([], None, None))
    else if |query| == 1 && query[0].Offset? then
      var offset := Count(args, query[0].position);
      if offset.Some? then Some(Plan([], None, offset)) else None
    else None
  }

  function Meeting(conditions: seq<Condition>): Row -> bool {
    row => forall c :: c in conditions ==> Cell(row, c.column) == Some(c.text)
  }

  function Keep(rows: seq<Row>, wanted: Row -> bool): seq<Row> {
    if rows == [] then []
    else (if wanted(rows[0]) then [rows[0]] else []) + Keep(rows[1..], wanted)
  }

  // Rows created at the same instant may come in either order.
  predicate Ordered(rows: seq<Row>, ordered: seq<Row>) {
    && multiset(rows) == multiset(ordered)
    && NewestFirstOrder(ordered)
  }

  predicate NewestFirstOrder(rows: seq<Row>) {
    forall i, j :: 0 <= i < j < |rows| ==> rows[i].createdAt >= rows[j].createdAt
  }

  function Window(rows: seq<Row>, offset: nat, limit: Option<nat>): seq<Row> {
    var rest := if offset <= |rows| then rows[offset..] else [];
    if limit.Some? && limit.value <= |rest| then rest[..limit.value] else rest
  }

  /** An answer the database may give: every argument is used, every placeholder bound, to a value of its type. */
  ghost predicate Answers(query: seq<Clause>, args: seq<Arg>, rows: seq<Row>, answer: seq<Row>) {
    var plan := Compile(query, args);
    && plan.Some?
    && Positions(query) == Span(1, |args|)
    && exists ordered :: Ordered(Keep(rows, Meeting(plan.value.conditions)), ordered)
                      && answer == Window(ordered, if plan.value.offset.Some? then plan.value.offset.value else 0,
                                          plan.value.limit)
  }

  // ---------- what the filter asks for ----------

  datatype FunctionFilter = FunctionFilter(runtime: Option<string>, limit: int, offset: int)

  datatype InvocationFilter = InvocationFilter(functionId: Option<Id>, status: Option<string>, limit: int, offset: int)

  function WantedFunctions(filter: FunctionFilter): Row -> bool {
    row => filter.runtime.Some? ==> Cell(row, RuntimeColumn) == filter.runtime
  }

  function WantedInvocations(filter: InvocationFilter): Row -> bool {
    row =>
      && (filter.functionId.Some? ==> Cell(row, FunctionIdColumn) == filter.functionId)
      && (filter.status.Some? ==> Cell(row, StatusColumn) == filter.status)
  }

  /**
   The wanted rows, newest first, less the first offset of them, and of the rest at most limit, unless that is not
   positive.
   */
  ghost predicate Lists(wanted: Row -> bool, limit: int, offset: int, rows: seq<Row>, answer: seq<Row>) {
    exists ordered :: Ordered(Keep(rows, wanted), ordered)
                   && answer == Window(ordered, if offset > 0 then offset else 0,
                                       if limit > 0 then Some(limit) else None)
  }

  /** Of every table, the database answers the query with exactly what was asked for. */
  ghost predicate Means(query: seq<Clause>, args: seq<Arg>, wanted: Row -> bool, limit: int, offset: int) {
    forall rows, answer :: Answers(query, args, rows, answer) <==> Lists(wanted, limit, offset, rows, answer)
  }

  // ---------- the builders ----------

  method BuildFunctionQuery(filter: FunctionFilter) returns (query: seq<Clause>, args: seq<Arg>)
    ensures Means(query, args, WantedFunctions(filter), filter.limit, filter.offset)
  {
    query, args := [], [];
    var argPos := 1;
    ghost var conditions: seq<Condition> := [];
    if filter.runtime.Some? {
      query := query + [Where(RuntimeColumn, argPos)];
      args := args + [Text(filter.runtime.value)];
      argPos := argPos + 1;
      conditions := OneMore(conditions, RuntimeColumn, filter.runtime.value);
    }
    assert conditions == RuntimeConditions(filter);
    assert query == Wheres(conditions, 1) && args == Texts(conditions) && argPos == |conditions| + 1;
    query := query + [NewestFirst];
    query, args := AppendBounds(query, args, argPos, filter.limit, filter.offset);
    FunctionsFaithful(filter, query, args);
  }

  method BuildInvocationQuery(filter: InvocationFilter) returns (query: seq<Clause>, args: seq<Arg>)
    ensures Means(query, args, WantedInvocations(filter), filter.limit, filter.offset)
  {
    var argPos;
    query, args, argPos := AppendFilters(filter);
    query := query + [NewestFirst];
    query, args := AppendBounds(query, args, argPos, filter.limit, filter.offset);
    InvocationsFaithful(filter, query, args);
  }

  // Its beginning: one condition for each filter that is set.
  method AppendFilters(filter: InvocationFilter) returns (query: seq<Clause>, args: seq<Arg>, argPos: nat)
    ensures query == Wheres(Conditions(filter), 1) && args == Texts(Conditions(filter))
    ensures argPos == |Conditions(filter)| + 1
  {
    query, args, argPos := [], [], 1;
    ghost var conditions: seq<Condition> := [];
    if filter.functionId.Some? {
      query := query + [Where(FunctionIdColumn, argPos)];
      args := args + [Text(filter.functionId.value)];
      argPos := argPos + 1;
      conditions := OneMore(conditions, FunctionIdColumn, filter.functionId.value);
    }
    if filter.status.Some? {
      query := query + [Where(StatusColumn, argPos)];
      args := args + [Text(filter.status.value)];
      argPos := argPos + 1;
      conditions := OneMore(conditions, StatusColumn, filter.status.value);
    }
    assert conditions == Conditions(filter);
  }

  ghost function Conditions(filter: InvocationFilter): seq<Condition> {
    (if filter.functionId.Some? then [Condition(FunctionIdColumn, filter.functionId.value)] else [])
    + if filter.status.Some? then [Condition(StatusColumn, filter.status.value)] else []
  }

  lemma OneMore(conditions: seq<Condition>, column: Column, text: string) returns (all: seq<Condition>)
    ensures all == conditions + [Condition(column, text)]
    ensures Wheres(all, 1) == Wheres(conditions, 1) + [Where(column, |conditions| + 1)]
    ensures Texts(all) == Texts(conditions) + [Text(text)]
  {
    all := conditions + [Condition(column, text)];
    WheresSnoc(conditions, Condition(column, text), 1);
  }

  lemma {:induction false} WheresSnoc(conditions: seq<Condition>, last: Condition, from: nat)
    ensures Wheres(conditions + [last], from) == Wheres(conditions, from) + [Where(last.column, from + |conditions|)]
  {
    if conditions != [] {
      assert (conditions + [last])[1..] == conditions[1..] + [last];
      WheresSnoc(conditions[1..], last, from + 1);
    }
  }

  // What both builders end with.
  method AppendBounds(start: seq<Clause>, given: seq<Arg>, from: nat, limit: int, offset: int)
    returns (query: seq<Clause>, args: seq<Arg>)
    ensures query == start + BoundClauses(from, limit, offset) && args == given + BoundArgs(limit, offset)
  {
    query, args := start, given;
    var argPos := from;
    if limit > 0 {
      query := query + [Limit(argPos)];
      args := args + [Number(limit)];
      argPos := argPos + 1;
    }
    if offset > 0 {
      query := query + [Offset(argPos)];
      args := args + [Number(offset)];
    }
  }

  function Wheres(conditions: seq<Condition>, from: nat): seq<Clause> {
    if conditions == [] then [] else [Where(conditions[0].column, from)] + Wheres(conditions[1..], from + 1)
  }

  function Texts(conditions: seq<Condition>): seq<Arg> {
    seq(|conditions|, k requires 0 <= k < |conditions| => Text(conditions[k].text))
  }

  function BoundClauses(from: nat, limit: int, offset: int): seq<Clause> {
    if limit > 0 then [Limit(from)] + OffsetClauses(from + 1, offset) else OffsetClauses(from, offset)
  }

  function QueryOf(conditions: seq<Condition>, limit: int, offset: int): seq<Clause> {
    Wheres(conditions, 1) + [NewestFirst] + BoundClauses(|conditions| + 1, limit, offset)
  }

  function BoundArgs(limit: int, offset: int): seq<Arg> {
    (if limit > 0 then [Number(limit)] else []) + if offset > 0 then [Number(offset)] else []
  }

  lemma {:induction false} CompileWheres(conditions: seq<Condition>, from: nat, tail: seq<Clause>, args: seq<Arg>)
    requires 1 <= from && from - 1 + |conditions| <= |args|
    requires forall k :: 0 <= k < |conditions| ==> args[from - 1 + k] == Text(conditions[k].text)
    requires |tail| > 0 && tail[0].NewestFirst?
    ensures var all, rest := Compile(Wheres(conditions, from) + tail, args), Compile(tail, args);
      all == if rest.Some? then Some(rest.value.(conditions := conditions + rest.value.conditions)) else None
  {
    var query := Wheres(conditions, from) + tail;
    if conditions == [] {
      assert query == tail;
      var rest := Compile(tail, args);
      if rest.Some? {
        assert [] + rest.value.conditions == rest.value.conditions;
      }
    } else {
      assert args[from - 1] == args[from - 1 + 0];
      assert Argument(args, from) == Some(Text(conditions[0].text));
      assert query[1..] == Wheres(conditions[1..], from + 1) + tail;
      CompileWheres(conditions[1..], from + 1, tail, args);
      assert conditions == [conditions[0]] + conditions[1..];
      assert query[0] == Where(conditions[0].column, from);
      var rest := Compile(tail, args);
      if rest.Some? {
        assert [conditions[0]] + (conditions[1..] + rest.value.conditions) == conditions + rest.value.conditions;
      }
    }
  }

  lemma PositionsFirst(query: seq<Clause>, from: nat, n: nat, others: set<nat>)
    requires query != [] && query[0].Where? && query[0].position == from
    requires Positions(query[1..]) == Span(from + 1, n) + others
    ensures Positions(query) == Span(from, n + 1) + others
  {
    SpanFirst(from, n + 1);
  }

  lemma {:induction false} PositionsOf(conditions: seq<Condition>, from: nat, tail: seq<Clause>)
    ensures Positions(Wheres(conditions, from) + tail) == Span(from, |conditions|) + Positions(tail)
  {
    var query := Wheres(conditions, from) + tail;
    if conditions == [] {
      assert query == tail;
    } else {
      assert query[1..] == Wheres(conditions[1..], from + 1) + tail;
      PositionsOf(conditions[1..], from + 1, tail);
      assert query[0] == Where(conditions[0].column, from);
      PositionsFirst(query, from, |conditions| - 1, Positions(tail));
    }
  }

  lemma PositionOfOffset(from: nat, offset: int)
    ensures Positions(OffsetClauses(from, offset)) == Span(from, |BoundArgs(0, offset)|)
  {
    if offset > 0 {
      assert OffsetClauses(from, offset)[1..] == [];
    }
  }

  lemma PositionsOfBounds(from: nat, limit: int, offset: int)
    ensures Positions([NewestFirst] + BoundClauses(from, limit, offset)) == Span(from, |BoundArgs(limit, offset)|)
  {
    var bounds := BoundClauses(from, limit, offset);
    assert ([NewestFirst] + bounds)[1..] == bounds;
    if limit > 0 {
      assert bounds[1..] == OffsetClauses(from + 1, offset);
      PositionOfOffset(from + 1, offset);
      SpanFirst(from, |BoundArgs(limit, offset)|);
    } else {
      PositionOfOffset(from, offset);
    }
  }

  lemma CompileTail(given: seq<Arg>, limit: int, offset: int)
    ensures var from := |given| + 1;
      Compile([NewestFirst] + BoundClauses(from, limit, offset), given + BoundArgs(limit, offset))
        == Some(Plan([], if limit > 0 then Some(limit) else None, if offset > 0 then Some(offset) else None))
  {
    var from := |given| + 1;
    var bounds, args := BoundClauses(from, limit, offset), given + BoundArgs(limit, offset);
    CompileOrder(bounds, args);
    if limit > 0 {
      assert args[|given|] == Number(limit) && (offset > 0 ==> args[from] == Number(offset));
      CompileLimit(args, from, limit, offset);
    } else {
      CompileOffsetTail(args, from, offset);
    }
  }

  lemma CompileOrder(bounds: seq<Clause>, args: seq<Arg>)
    ensures Compile([NewestFirst] + bounds, args) == CompileBounds(bounds, args)
  {
    assert ([NewestFirst] + bounds)[1..] == bounds;
  }

  lemma CompileLimit(args: seq<Arg>, from: nat, limit: int, offset: int)
    requires limit > 0 && 1 <= from <= |args| && args[from - 1] == Number(limit)
    requires offset > 0 ==> from < |args| && args[from] == Number(offset)
    ensures CompileBounds([Limit(from)] + OffsetClauses(from + 1, offset), args)
      == Some(Plan([], Some(limit), if offset > 0 then Some(offset) else None))
  {
    assert ([Limit(from)] + OffsetClauses(from + 1, offset))[1..] == OffsetClauses(from + 1, offset);
    CompileOffsetTail(args, from + 1, offset);
  }

  function OffsetClauses(from: nat, offset: int): seq<Clause> {
    if offset > 0 then [Offset(from)] else []
  }

  lemma CompileOffsetTail(args: seq<Arg>, from: nat, offset: int)
    requires offset > 0 ==> 1 <= from <= |args| && args[from - 1] == Number(offset)
    ensures CompileOffset(OffsetClauses(from, offset), args)
      == Some(Plan([], None, if offset > 0 then Some(offset) else None))
  {
  }

  lemma {:induction false} KeepSame(rows: seq<Row>, p: Row -> bool, q: Row -> bool)
    requires forall row :: p(row) <==> q(row)
    ensures Keep(rows, p) == Keep(rows, q)
  {
    if rows != [] {
      KeepSame(rows[1..], p, q);
    }
  }

  lemma {:induction false} Compiled(conditions: seq<Condition>, limit: int, offset: int, query: seq<Clause>,
                                    args: seq<Arg>)
    requires query == Wheres(conditions, 1) + ([NewestFirst] + BoundClauses(|conditions| + 1, limit, offset))
    requires args == Texts(conditions) + BoundArgs(limit, offset)
    ensures Compile(query, args)
      == Some(Plan(conditions, if limit > 0 then Some(limit) else None, if offset > 0 then Some(offset) else None))
  {
    CompileTail(Texts(conditions), limit, offset);
    CompileWheres(conditions, 1, [NewestFirst] + BoundClauses(|conditions| + 1, limit, offset), args);
    assert conditions + [] == conditions;
  }

  lemma {:induction false} AllUsed(conditions: seq<Condition>, limit: int, offset: int, query: seq<Clause>,
                                   args: seq<Arg>)
    requires query == Wheres(conditions, 1) + ([NewestFirst] + BoundClauses(|conditions| + 1, limit, offset))
    requires args == Texts(conditions) + BoundArgs(limit, offset)
    ensures Positions(query) == Span(1, |args|)
  {
    var from, more := |conditions| + 1, |BoundArgs(limit, offset)|;
    PositionsOfBounds(from, limit, offset);
    TailUsed(conditions, [NewestFirst] + BoundClauses(from, limit, offset), more);
    assert |args| == |conditions| + more;
  }

  lemma TailUsed(conditions: seq<Condition>, tail: seq<Clause>, more: nat)
    requires Positions(tail) == Span(|conditions| + 1, more)
    ensures Positions(Wheres(conditions, 1) + tail) == Span(1, |conditions| + more)
  {
    PositionsOf(conditions, 1, tail);
    SpanJoin(1, |conditions|, more);
  }

  lemma SameAnswers(conditions: seq<Condition>, limit: int, offset: int, query: seq<Clause>, args: seq<Arg>,
                    wanted: Row -> bool, rows: seq<Row>, answer: seq<Row>)
    requires forall row :: Meeting(conditions)(row) <==> wanted(row)
    requires Compile(query, args)
      == Some(Plan(conditions, if limit > 0 then Some(limit) else None, if offset > 0 then Some(offset) else None))
    requires Positions(query) == Span(1, |args|)
    ensures Answers(query, args, rows, answer) <==> Lists(wanted, limit, offset, rows, answer)
  {
    KeepSame(rows, Meeting(conditions), wanted);
  }

  // The query of these conditions and bounds asks for what they say, of any table.
  lemma Faithful(conditions: seq<Condition>, limit: int, offset: int, wanted: Row -> bool)
    requires forall row :: Meeting(conditions)(row) <==> wanted(row)
    ensures Means(QueryOf(conditions, limit, offset), Texts(conditions) + BoundArgs(limit, offset), wanted, limit,
                  offset)
  {
    var query := QueryOf(conditions, limit, offset);
    var args := Texts(conditions) + BoundArgs(limit, offset);
    assert query == Wheres(conditions, 1) + ([NewestFirst] + BoundClauses(|conditions| + 1, limit, offset));
    Compiled(conditions, limit, offset, query, args);
    AllUsed(conditions, limit, offset, query, args);
    forall rows, answer
      ensures Answers(query, args, rows, answer) <==> Lists(wanted, limit, offset, rows, answer)
    {
      SameAnswers(conditions, limit, offset, query, args, wanted, rows, answer);
    }
  }

  ghost function RuntimeConditions(filter: FunctionFilter): seq<Condition> {
    if filter.runtime.Some? then [Condition(RuntimeColumn, filter.runtime.value)] else []
  }

  lemma FunctionsFaithful(filter: FunctionFilter, query: seq<Clause>, args: seq<Arg>)
    requires query == QueryOf(RuntimeConditions(filter), filter.limit, filter.offset)
    requires args == Texts(RuntimeConditions(filter)) + BoundArgs(filter.limit, filter.offset)
    ensures Means(query, args, WantedFunctions(filter), filter.limit, filter.offset)
  {
    Faithful(RuntimeConditions(filter), filter.limit, filter.offset, WantedFunctions(filter));
  }

  lemma InvocationsFaithful(filter: InvocationFilter, query: seq<Clause>, args: seq<Arg>)
    requires query == QueryOf(Conditions(filter), filter.limit, filter.offset)
    requires args == Texts(Conditions(filter)) + BoundArgs(filter.limit, filter.offset)
    ensures Means(query, args, WantedInvocations(filter), filter.limit, filter.offset)
  {
    assert forall c :: c in Conditions(filter) <==>
      || (filter.functionId.Some? && c == Condition(FunctionIdColumn, filter.functionId.value))
      || (filter.status.Some? && c == Condition(StatusColumn, filter.status.value));
    Faithful(Conditions(filter), filter.limit, filter.offset, WantedInvocations(filter));
  }

  // Every table can be answered.

  function Insert(row: Row, ordered: seq<Row>): seq<Row> {
    if ordered == [] || row.createdAt >= ordered[0].createdAt then [row] + ordered
    else [ordered[0]] + Insert(row, ordered[1..])
  }

  lemma {:induction false} InsertKeeps(row: Row, ordered: seq<Row>)
    ensures multiset(Insert(row, ordered)) == multiset{row} + multiset(ordered)
  {
    if ordered != [] && row.createdAt < ordered[0].createdAt {
      InsertKeeps(row, ordered[1..]);
      assert ordered == [ordered[0]] + ordered[1..];
    }
  }

  lemma {:induction false} InsertOrders(row: Row, ordered: seq<Row>)
    requires NewestFirstOrder(ordered)
    ensures NewestFirstOrder(Insert(row, ordered))
    ensures forall t :: row.createdAt <= t && (ordered != [] ==> ordered[0].createdAt <= t) ==>
      AllBy(Insert(row, ordered), t)
  {
    if ordered != [] && row.createdAt < ordered[0].createdAt {
      InsertOrders(row, ordered[1..]);
      assert AllBy(Insert(row, ordered[1..]), ordered[0].createdAt);
    }
  }

  predicate AllBy(rows: seq<Row>, t: Time) {
    forall k :: 0 <= k < |rows| ==> rows[k].createdAt <= t
  }

  lemma {:induction false} OrderExists(rows: seq<Row>) returns (ordered: seq<Row>)
    ensures Ordered(rows, ordered)
  {
    if rows == [] {
      return [];
    }
    var rest := OrderExists(rows[1..]);
    InsertKeeps(rows[0], rest);
    InsertOrders(rows[0], rest);
    assert rows == [rows[0]] + rows[1..];
    return Insert(rows[0], rest);
  }

  lemma AnswerExists(wanted: Row -> bool, limit: int, offset: int, rows: seq<Row>)
    ensures exists answer :: Lists(wanted, limit, offset, rows, answer)
  {
    var ordered := OrderExists(Keep(rows, wanted));
    assert Lists(wanted, limit, offset, rows,
                 Window(ordered, if offset > 0 then offset else 0, if limit > 0 then Some(limit) else None));
  }

  // ---------- pages ----------

  function Concat(pages: seq<seq<Row>>): seq<Row> {
    if pages == [] then [] else pages[0] + Concat(pages[1..])
  }

  // The pages a table may be answered with, by their offset.
  ghost function Server(wanted: Row -> bool, limit: nat, rows: seq<Row>): (nat, seq<Row>) -> bool {
    (from: nat, page: seq<Row>) => Lists(wanted, limit, from, rows, page)
  }

  // What a client gets that asks for page after page.
  ghost predicate Walk(server: (nat, seq<Row>) -> bool, limit: nat, from: nat, pages: seq<seq<Row>>)
    decreases |pages|
  {
    pages != [] ==> server(from, pages[0]) && Walk(server, limit, from + limit, pages[1..])
  }

  // The client stops at a page that is not full.
  predicate EndsShort(limit: nat, pages: seq<seq<Row>>) {
    pages != [] && |pages[|pages| - 1]| < limit
  }

  // How many rows were created at t or later.
  function Above(rows: seq<Row>, t: Time): nat {
    if rows == [] then 0 else (if rows[0].createdAt >= t then 1 else 0) + Above(rows[1..], t)
  }

  lemma {:induction false} AboveSplit(a: seq<Row>, b: seq<Row>, t: Time)
    ensures Above(a + b, t) == Above(a, t) + Above(b, t)
  {
    if a == [] {
      assert a + b == b;
    } else {
      AboveSplit(a[1..], b, t);
      assert (a + b)[1..] == a[1..] + b;
    }
  }

  lemma {:induction false} AboveSame(a: seq<Row>, b: seq<Row>, t: Time)
    requires multiset(a) == multiset(b)
    ensures Above(a, t) == Above(b, t)
    decreases |a|
  {
    if a == [] {
      assert multiset(b) == multiset{};
      assert |b| == |multiset(b)| == 0;
    } else {
      var i := Find(a, b);
      var rest := b[..i] + b[i + 1..];
      Without(a, b, i);
      AboveSame(a[1..], rest, t);
      AboveSplit(b[..i], b[i + 1..], t);
      AboveSplit(b[..i], [b[i]] + b[i + 1..], t);
      assert b == b[..i] + ([b[i]] + b[i + 1..]);
      assert ([b[i]] + b[i + 1..])[1..] == b[i + 1..];
    }
  }

  lemma Find(a: seq<Row>, b: seq<Row>) returns (i: nat)
    requires multiset(a) == multiset(b) && a != []
    ensures i < |b| && b[i] == a[0]
  {
    assert a[0] in multiset(b);
    i :| i < |b| && b[i] == a[0];
  }

  lemma Without(a: seq<Row>, b: seq<Row>, i: nat)
    requires multiset(a) == multiset(b) && a != [] && i < |b| && b[i] == a[0]
    ensures multiset(a[1..]) == multiset(b[..i] + b[i + 1..])
  {
    assert a == [a[0]] + a[1..];
    assert b == b[..i] + [b[i]] + b[i + 1..];
    assert multiset(b) == multiset(b[..i]) + multiset{b[i]} + multiset(b[i + 1..]);
    assert multiset(b) - multiset{b[i]} == multiset(b[..i]) + multiset(b[i + 1..]);
    assert multiset(a) - multiset{a[0]} == multiset(a[1..]);
  }

  lemma {:induction false} AboveIsPrefix(rows: seq<Row>, t: Time, i: nat)
    requires NewestFirstOrder(rows) && i < |rows|
    ensures rows[i].createdAt >= t <==> i < Above(rows, t)
    decreases |rows|
  {
    if i > 0 {
      assert rows[0].createdAt >= rows[i].createdAt;
      assert rows[1..][i - 1] == rows[i];
      AboveIsPrefix(rows[1..], t, i - 1);
    }
    if rows[0].createdAt < t {
      NoneAbove(rows, t);
    }
  }

  lemma {:induction false} NoneAbove(rows: seq<Row>, t: Time)
    requires NewestFirstOrder(rows) && rows != [] && rows[0].createdAt < t
    ensures Above(rows, t) == 0
    decreases |rows|
  {
    if |rows| > 1 {
      NoneAbove(rows[1..], t);
    }
  }

  // In whatever order rows of one instant come, the instants come in one.
  lemma SameTime(a: seq<Row>, b: seq<Row>, i: nat)
    requires multiset(a) == multiset(b) && NewestFirstOrder(a) && NewestFirstOrder(b) && i < |a| && i < |b|
    ensures a[i].createdAt == b[i].createdAt
  {
    AboveSame(a, b, a[i].createdAt);
    AboveSame(a, b, b[i].createdAt);
    AboveIsPrefix(a, a[i].createdAt, i);
    AboveIsPrefix(b, a[i].createdAt, i);
    AboveIsPrefix(a, b[i].createdAt, i);
    AboveIsPrefix(b, b[i].createdAt, i);
  }

  // No instant goes on beyond the first rows.
  predicate Boundary(rows: seq<Row>, p: nat) {
    0 < p < |rows| ==> rows[p - 1].createdAt != rows[p].createdAt
  }

  lemma PrefixCount(rows: seq<Row>, p: nat, x: Row)
    requires NewestFirstOrder(rows) && 0 < p < |rows| && Boundary(rows, p)
    ensures multiset(rows[..p])[x] == if x.createdAt >= rows[p - 1].createdAt then multiset(rows)[x] else 0
  {
    assert rows == rows[..p] + rows[p..];
    assert x.createdAt < rows[p - 1].createdAt ==> x !in rows[..p];
    assert x.createdAt >= rows[p - 1].createdAt ==> x !in rows[p..];
  }

  // Up to a boundary every order has the same rows.
  lemma SamePrefix(a: seq<Row>, b: seq<Row>, p: nat)
    requires multiset(a) == multiset(b) && NewestFirstOrder(a) && NewestFirstOrder(b) && p <= |a| == |b|
    requires Boundary(a, p)
    ensures multiset(a[..p]) == multiset(b[..p])
  {
    if p == |a| {
      assert a[..p] == a && b[..p] == b;
    } else if p > 0 {
      SameTime(a, b, p - 1);
      SameTime(a, b, p);
      forall x ensures multiset(a[..p])[x] == multiset(b[..p])[x] {
        PrefixCount(a, p, x);
        PrefixCount(b, p, x);
      }
    }
  }

  // No two rows of one creation time are on different pages.
  predicate NoneStraddles(rows: seq<Row>, limit: nat)
    requires limit > 0
    decreases |rows|
  {
    |rows| > limit ==> Boundary(rows, limit) && NoneStraddles(rows[limit..], limit)
  }

  // Between two boundaries every order has the same rows, and their instants one by one.
  lemma PageRows(o: seq<Row>, ordered: seq<Row>, from: nat, to: nat)
    requires multiset(o) == multiset(ordered) && NewestFirstOrder(o) && NewestFirstOrder(ordered) && |o| == |ordered|
    requires from <= to <= |ordered| && Boundary(ordered, from) && Boundary(ordered, to)
    ensures Resembles(o[from..to], ordered[from..to])
  {
    assert multiset(o[from..to]) == multiset(ordered[from..to]) by {
      SamePrefix(ordered, o, from);
      SamePrefix(ordered, o, to);
      Middle(o, from, to);
      Middle(ordered, from, to);
    }
    forall i | from <= i < to ensures o[i].createdAt == ordered[i].createdAt {
      SameTime(o, ordered, i);
    }
  }

  lemma Middle(rows: seq<Row>, from: nat, to: nat)
    requires from <= to <= |rows|
    ensures multiset(rows[from..to]) == multiset(rows[..to]) - multiset(rows[..from])
  {
    assert rows[..to] == rows[..from] + rows[from..to];
  }

  // The same rows as in the order, with the same instants one by one.
  ghost predicate Resembles(rows: seq<Row>, ordered: seq<Row>) {
    && multiset(rows) == multiset(ordered) && |rows| == |ordered|
    && forall i :: 0 <= i < |rows| ==> rows[i].createdAt == ordered[i].createdAt
  }

  lemma Joined(a: seq<Row>, b: seq<Row>, c: seq<Row>, d: seq<Row>, whole: seq<Row>)
    requires Resembles(a, c) && Resembles(b, d) && c + d == whole
    ensures Resembles(a + b, whole)
  {
  }

  lemma SameSizes(a: seq<Row>, b: seq<Row>)
    requires multiset(a) == multiset(b)
    ensures |a| == |b|
  {
    assert |multiset(a)| == |multiset(b)|;
  }

  lemma SomeOrder(wanted: Row -> bool, limit: nat, from: nat, rows: seq<Row>, page: seq<Row>) returns (o: seq<Row>)
    requires limit > 0 && Lists(wanted, limit, from, rows, page)
    ensures Ordered(Keep(rows, wanted), o) && page == Window(o, from, Some(limit))
  {
    o :| Ordered(Keep(rows, wanted), o)
      && page == Window(o, if from > 0 then from else 0, if limit > 0 then Some(limit) else None);
  }

  predicate Bounded(ordered: seq<Row>, from: nat, limit: nat)
    requires limit > 0
  {
    from <= |ordered| ==> Boundary(ordered, from) && NoneStraddles(ordered[from..], limit)
  }

  lemma BoundedOn(ordered: seq<Row>, from: nat, limit: nat)
    requires limit > 0 && Bounded(ordered, from, limit)
    ensures Bounded(ordered, from + limit, limit)
  {
    if from + limit <= |ordered| {
      assert ordered[from..][limit..] == ordered[from + limit..];
    }
  }

  lemma OnePage(wanted: Row -> bool, limit: nat, from: nat, rows: seq<Row>, page: seq<Row>, ordered: seq<Row>)
    requires limit > 0 && Ordered(Keep(rows, wanted), ordered) && Bounded(ordered, from, limit)
    requires Lists(wanted, limit, from, rows, page)
    ensures Resembles(page, Window(ordered, from, Some(limit)))
  {
    var o := SomeOrder(wanted, limit, from, rows, page);
    SameSizes(o, ordered);
    if from <= |ordered| {
      BoundedOn(ordered, from, limit);
      var to := if from + limit < |ordered| then from + limit else |ordered|;
      PageRows(o, ordered, from, to);
      WindowIs(o, from, to, limit);
      WindowIs(ordered, from, to, limit);
    }
  }

  lemma WindowIs(rows: seq<Row>, from: nat, to: nat, limit: nat)
    requires from <= to <= |rows| && to == if from + limit < |rows| then from + limit else |rows|
    ensures Window(rows, from, Some(limit)) == rows[from..to]
  {
  }

  // Pages that have the rows of the order there, and their instants one by one.
  ghost function Alike(ordered: seq<Row>, limit: nat): (nat, seq<Row>) -> bool {
    (from: nat, page: seq<Row>) => Resembles(page, Window(ordered, from, Some(limit)))
  }

  lemma {:induction false} EachPage(wanted: Row -> bool, limit: nat, from: nat, rows: seq<Row>, pages: seq<seq<Row>>,
                                    ordered: seq<Row>)
    requires limit > 0 && Ordered(Keep(rows, wanted), ordered) && Bounded(ordered, from, limit)
    requires Walk(Server(wanted, limit, rows), limit, from, pages)
    ensures Walk(Alike(ordered, limit), limit, from, pages)
    decreases |pages|
  {
    if pages != [] {
      OnePage(wanted, limit, from, rows, pages[0], ordered);
      BoundedOn(ordered, from, limit);
      EachPage(wanted, limit, from + limit, rows, pages[1..], ordered);
    }
  }

  lemma OnlyPage(ordered: seq<Row>, limit: nat, from: nat, page: seq<Row>)
    requires Alike(ordered, limit)(from, page) && |page| < limit
    ensures Resembles(page, Window(ordered, from, None))
  {
    Next(ordered, from, limit);
  }

  lemma PageAndRest(ordered: seq<Row>, limit: nat, from: nat, page: seq<Row>, rest: seq<Row>)
    requires Alike(ordered, limit)(from, page) && Resembles(rest, Window(ordered, from + limit, None))
    ensures Resembles(page + rest, Window(ordered, from, None))
  {
    Next(ordered, from, limit);
    Joined(page, rest, Window(ordered, from, Some(limit)), Window(ordered, from + limit, None),
           Window(ordered, from, None));
  }

  lemma {:induction false} EachTiles(ordered: seq<Row>, limit: nat, from: nat, pages: seq<seq<Row>>)
    requires Walk(Alike(ordered, limit), limit, from, pages) && EndsShort(limit, pages)
    ensures Resembles(Concat(pages), Window(ordered, from, None))
    decreases |pages|
  {
    var page, rest := pages[0], pages[1..];
    if rest == [] {
      OnlyPage(ordered, limit, from, page);
      assert page + [] == page;
    } else {
      assert rest[|rest| - 1] == pages[|pages| - 1];
      EachTiles(ordered, limit, from + limit, rest);
      PageAndRest(ordered, limit, from, page, Concat(rest));
    }
  }

  lemma Next(rows: seq<Row>, from: nat, limit: nat)
    ensures Window(rows, from, Some(limit)) + Window(rows, from + limit, None) == Window(rows, from, None)
    ensures |Window(rows, from, Some(limit))| < limit ==> Window(rows, from, Some(limit)) == Window(rows, from, None)
  {
  }

  // ---------- pages that do not tile ----------

  ghost predicate NoRowTwice(rows: seq<Row>) {
    forall i, j :: 0 <= i < j < |rows| ==> rows[i] != rows[j]
  }

  // Every page of the order may come.
  ghost predicate Serves(server: (nat, seq<Row>) -> bool, limit: nat, o: seq<Row>) {
    forall from :: server(from, Window(o, from, Some(limit)))
  }

  lemma OrderServed(wanted: Row -> bool, limit: nat, rows: seq<Row>, o: seq<Row>)
    requires limit > 0 && Ordered(Keep(rows, wanted), o)
    ensures Serves(Server(wanted, limit, rows), limit, o)
  {
    forall from: nat ensures Lists(wanted, limit, from, rows, Window(o, from, Some(limit))) {
      assert Window(o, from, Some(limit))
        == Window(o, if from > 0 then from else 0, if limit > 0 then Some(limit) else None);
    }
  }

  lemma Prepend(server: (nat, seq<Row>) -> bool, limit: nat, from: nat, page: seq<Row>, rest: seq<seq<Row>>)
    returns (pages: seq<seq<Row>>)
    requires server(from, page) && Walk(server, limit, from + limit, rest) && EndsShort(limit, rest)
    ensures Walk(server, limit, from, pages) && EndsShort(limit, pages) && Concat(pages) == page + Concat(rest)
  {
    pages := [page] + rest;
    assert pages[1..] == rest;
    assert pages[|pages| - 1] == rest[|rest| - 1];
  }

  lemma LastPage(server: (nat, seq<Row>) -> bool, limit: nat, from: nat, page: seq<Row>) returns (pages: seq<seq<Row>>)
    requires server(from, page) && |page| < limit
    ensures Walk(server, limit, from, pages) && EndsShort(limit, pages) && Concat(pages) == page
  {
    pages := [page];
    assert pages[1..] == [];
    assert Concat(pages) == page + [];
  }

  // Those rows are among the ones from there on.
  ghost predicate From(found: seq<Row>, ordered: seq<Row>, from: nat) {
    forall row :: row in found ==> from <= |ordered| && row in ordered[from..]
  }

  lemma WindowFrom(ordered: seq<Row>, from: nat, limit: nat, more: seq<Row>)
    requires From(more, ordered, from + limit)
    ensures From(Window(ordered, from, Some(limit)) + more, ordered, from)
  {
    if from + limit <= |ordered| {
      assert ordered[from..] == ordered[from..from + limit] + ordered[from + limit..];
    }
  }

  // The pages of one order from some row on: none of the rows before are on them.
  lemma {:induction false} PlainPages(server: (nat, seq<Row>) -> bool, limit: nat, from: nat, ordered: seq<Row>)
    returns (pages: seq<seq<Row>>)
    requires limit > 0 && Serves(server, limit, ordered)
    ensures Walk(server, limit, from, pages) && EndsShort(limit, pages) && From(Concat(pages), ordered, from)
    decreases if from < |ordered| then |ordered| - from else 0
  {
    var page := Window(ordered, from, Some(limit));
    if |page| < limit {
      pages := LastPage(server, limit, from, page);
      WindowFrom(ordered, from, limit, []);
      assert page + [] == page;
    } else {
      var rest := PlainPages(server, limit, from + limit, ordered);
      pages := Prepend(server, limit, from, page, rest);
      WindowFrom(ordered, from, limit, Concat(rest));
    }
  }

  // The two rows at a page boundary, the other way round.
  function Swapped(rows: seq<Row>, p: nat): seq<Row>
    requires 0 < p < |rows|
  {
    rows[p - 1 := rows[p]][p := rows[p - 1]]
  }

  lemma SwappedIsOrdered(ordered: seq<Row>, p: nat)
    requires NewestFirstOrder(ordered) && 0 < p < |ordered| && !Boundary(ordered, p)
    ensures NewestFirstOrder(Swapped(ordered, p)) && multiset(Swapped(ordered, p)) == multiset(ordered)
  {
    SwappedRows(ordered, p);
  }

  lemma SwappedRows(rows: seq<Row>, p: nat)
    requires 0 < p < |rows|
    ensures multiset(Swapped(rows, p)) == multiset(rows)
  {
    assert rows == rows[..p - 1] + [rows[p - 1], rows[p]] + rows[p + 1..];
    assert Swapped(rows, p) == rows[..p - 1] + [rows[p], rows[p - 1]] + rows[p + 1..];
  }

  // The page after the boundary of the swapped order repeats the row before it and lacks the row after it.
  lemma SwappedPage(ordered: seq<Row>, p: nat, limit: nat)
    requires 0 < p < |ordered| && limit > 0 && NoRowTwice(ordered)
    ensures ordered[p] !in Window(Swapped(ordered, p), p, Some(limit))
  {
  }

  lemma PlainPage(ordered: seq<Row>, from: nat, limit: nat, p: nat)
    requires NoRowTwice(ordered) && p < |ordered| && from + limit <= p
    ensures ordered[p] !in Window(ordered, from, Some(limit))
  {
  }

  lemma NotBefore(found: seq<Row>, ordered: seq<Row>, p: nat, from: nat)
    requires From(found, ordered, from) && NoRowTwice(ordered) && p < |ordered| && p < from
    ensures ordered[p] !in found
  {
  }

  // The order and those that differ from it in two rows of one instant may come, page by page.
  ghost predicate ServesSwapped(server: (nat, seq<Row>) -> bool, limit: nat, ordered: seq<Row>) {
    && Serves(server, limit, ordered)
    && forall p :: 0 < p < |ordered| && !Boundary(ordered, p) ==> Serves(server, limit, Swapped(ordered, p))
  }

  lemma WithoutRow(server: (nat, seq<Row>) -> bool, limit: nat, p: nat, ordered: seq<Row>)
    returns (pages: seq<seq<Row>>)
    requires limit > 0 && ServesSwapped(server, limit, ordered) && NoRowTwice(ordered)
    requires 0 < p < |ordered| && !Boundary(ordered, p)
    ensures Walk(server, limit, p, pages) && EndsShort(limit, pages) && ordered[p] !in Concat(pages)
  {
    SwappedPage(ordered, p, limit);
    var rest := PlainPages(server, limit, p + limit, ordered);
    NotBefore(Concat(rest), ordered, p, p + limit);
    assert Serves(server, limit, Swapped(ordered, p));
    pages := Prepend(server, limit, p, Window(Swapped(ordered, p), p, Some(limit)), rest);
  }

  // Where two rows of one creation time are on different pages, some client never sees the second.
  lemma {:induction false} LosesOne(server: (nat, seq<Row>) -> bool, limit: nat, from: nat, ordered: seq<Row>)
    returns (pages: seq<seq<Row>>, p: nat)
    requires limit > 0 && ServesSwapped(server, limit, ordered) && NoRowTwice(ordered)
    requires from <= |ordered| && !NoneStraddles(ordered[from..], limit)
    ensures Walk(server, limit, from, pages) && EndsShort(limit, pages)
    ensures from + limit <= p < |ordered| && ordered[p] !in Concat(pages)
    decreases |ordered| - from
  {
    var rest;
    var next := from + limit;
    Straddle(ordered, from, limit);
    if Boundary(ordered, next) {
      rest, p := LosesOne(server, limit, next, ordered);
    } else {
      p := next;
      rest := WithoutRow(server, limit, next, ordered);
    }
    PlainPage(ordered, from, limit, p);
    pages := Prepend(server, limit, from, Window(ordered, from, Some(limit)), rest);
  }

  lemma Straddle(ordered: seq<Row>, from: nat, limit: nat)
    requires limit > 0 && from <= |ordered| && !NoneStraddles(ordered[from..], limit)
    ensures from + limit < |ordered|
    ensures Boundary(ordered, from + limit) ==> !NoneStraddles(ordered[from + limit..], limit)
  {
    assert ordered[from..][limit..] == ordered[from + limit..];
  }

  /**
   Whatever orders the database picks from page to page, the pages up to the first short one list every wanted row once,
   newest first, exactly when no two rows of one creation time are on different pages.
   */
  lemma PagesTile(wanted: Row -> bool, limit: nat, rows: seq<Row>, ordered: seq<Row>)
    requires limit > 0 && Ordered(Keep(rows, wanted), ordered) && NoRowTwice(ordered)
    ensures (forall pages :: Walk(Server(wanted, limit, rows), limit, 0, pages) && EndsShort(limit, pages) ==>
                               Ordered(Keep(rows, wanted), Concat(pages)))
       <==> NoneStraddles(ordered, limit)
  {
    assert ordered[0..] == ordered && Window(ordered, 0, None) == ordered;
    if NoneStraddles(ordered, limit) {
      forall pages | Walk(Server(wanted, limit, rows), limit, 0, pages) && EndsShort(limit, pages)
        ensures Ordered(Keep(rows, wanted), Concat(pages))
      {
        EachPage(wanted, limit, 0, rows, pages, ordered);
        EachTiles(ordered, limit, 0, pages);
      }
    } else {
      AllServed(wanted, limit, rows, ordered);
      var pages, p := LosesOne(Server(wanted, limit, rows), limit, 0, ordered);
      Missing(ordered, p, Concat(pages));
    }
  }

  lemma AllServed(wanted: Row -> bool, limit: nat, rows: seq<Row>, ordered: seq<Row>)
    requires limit > 0 && Ordered(Keep(rows, wanted), ordered)
    ensures ServesSwapped(Server(wanted, limit, rows), limit, ordered)
  {
    OrderServed(wanted, limit, rows, ordered);
    forall p | 0 < p < |ordered| && !Boundary(ordered, p)
      ensures Serves(Server(wanted, limit, rows), limit, Swapped(ordered, p))
    {
      SwappedIsOrdered(ordered, p);
      OrderServed(wanted, limit, rows, Swapped(ordered, p));
    }
  }

  lemma Missing(ordered: seq<Row>, p: nat, found: seq<Row>)
    requires p < |ordered| && ordered[p] !in found
    ensures multiset(ordered) != multiset(found)
  {
    assert ordered[p] in multiset(ordered) && ordered[p] !in multiset(found);
  }

  // ---------- what a listing holds ----------

  lemma {:induction false} KeepCount(rows: seq<Row>, wanted: Row -> bool, row: Row)
    ensures multiset(Keep(rows, wanted))[row] == if wanted(row) then multiset(rows)[row] else 0
  {
    if rows != [] {
      KeepCount(rows[1..], wanted, row);
      assert rows == [rows[0]] + rows[1..];
      if wanted(rows[0]) {
        assert Keep(rows, wanted) == [rows[0]] + Keep(rows[1..], wanted);
      } else {
        assert Keep(rows, wanted) == Keep(rows[1..], wanted);
      }
    }
  }

  // Rows of the table that are wanted, in order, no more of them than the limit; without bounds, all of them.
  ghost predicate Holds(wanted: Row -> bool, limit: int, offset: int, rows: seq<Row>, answer: seq<Row>) {
    && (forall row :: row in answer ==> row in rows && wanted(row))
    && NewestFirstOrder(answer) && (limit > 0 ==> |answer| <= limit)
    && (limit <= 0 && offset <= 0 ==>
          forall row :: multiset(answer)[row] == if wanted(row) then multiset(rows)[row] else 0)
  }

  lemma ListedHolds(wanted: Row -> bool, limit: int, offset: int, rows: seq<Row>, answer: seq<Row>)
    requires Lists(wanted, limit, offset, rows, answer)
    ensures Holds(wanted, limit, offset, rows, answer)
  {
    var ordered :| Ordered(Keep(rows, wanted), ordered)
      && answer == Window(ordered, if offset > 0 then offset else 0, if limit > 0 then Some(limit) else None);
    AllKept(rows, wanted, ordered);
    Windowed(ordered, if offset > 0 then offset else 0, if limit > 0 then Some(limit) else None);
  }

  lemma AllKept(rows: seq<Row>, wanted: Row -> bool, ordered: seq<Row>)
    requires Ordered(Keep(rows, wanted), ordered)
    ensures forall row :: multiset(ordered)[row] == if wanted(row) then multiset(rows)[row] else 0
    ensures forall row :: row in ordered ==> row in rows && wanted(row)
  {
    forall row ensures multiset(ordered)[row] == if wanted(row) then multiset(rows)[row] else 0 {
      KeepCount(rows, wanted, row);
    }
    forall row | row in ordered ensures row in rows && wanted(row) {
      assert row in multiset(ordered) && row in multiset(rows);
    }
  }

  lemma Windowed(ordered: seq<Row>, offset: nat, limit: Option<nat>)
    requires NewestFirstOrder(ordered)
    ensures var page := Window(ordered, offset, limit);
      && (forall row :: row in page ==> row in ordered) && NewestFirstOrder(page)
      && (limit.Some? ==> |page| <= limit.value) && (offset == 0 && limit.None? ==> page == ordered)
  {
  }

  /** The functions listed are those of the runtime that is asked for, if one is. */
  lemma FunctionsListed(filter: FunctionFilter, rows: seq<Row>, answer: seq<Row>)
    requires Lists(WantedFunctions(filter), filter.limit, filter.offset, rows, answer)
    ensures forall row :: row in answer && filter.runtime.Some? ==> Cell(row, RuntimeColumn) == filter.runtime
    ensures filter.limit <= 0 && filter.offset <= 0 ==>
      forall row :: row in rows && (filter.runtime.Some? ==> Cell(row, RuntimeColumn) == filter.runtime) ==>
        row in answer
    ensures forall row :: row in answer ==> row in rows
  {
    ListedHolds(WantedFunctions(filter), filter.limit, filter.offset, rows, answer);
    forall row | row in rows && WantedFunctions(filter)(row) && filter.limit <= 0 && filter.offset <= 0
      ensures row in answer
    {
      assert row in multiset(rows) && row in multiset(answer);
    }
  }

  /** The invocations listed are those of the function, and of the status, that are asked for. */
  lemma InvocationsListed(filter: InvocationFilter, rows: seq<Row>, answer: seq<Row>)
    requires Lists(WantedInvocations(filter), filter.limit, filter.offset, rows, answer)
    ensures forall row :: row in answer && filter.functionId.Some? ==> Cell(row, FunctionIdColumn) == filter.functionId
    ensures forall row :: row in answer && filter.status.Some? ==> Cell(row, StatusColumn) == filter.status
    ensures filter.limit <= 0 && filter.offset <= 0 ==>
      forall row ::
        && row in rows
        && (filter.functionId.Some? ==> Cell(row, FunctionIdColumn) == filter.functionId)
        && (filter.status.Some? ==> Cell(row, StatusColumn) == filter.status)
        ==> row in answer
    ensures forall row :: row in answer ==> row in rows
  {
    ListedHolds(WantedInvocations(filter), filter.limit, filter.offset, rows, answer);
    forall row | row in rows && WantedInvocations(filter)(row) && filter.limit <= 0 && filter.offset <= 0
      ensures row in answer
    {
      assert row in multiset(rows) && row in multiset(answer);
    }
  }

  // A table of two rows, all of them wanted, in either order.
  lemma TwoWanted(a: Row, b: Row)
    requires a.createdAt == b.createdAt
    ensures var wanted := Keep([a, b], WantedFunctions(FunctionFilter(None, 0, 0)));
      Ordered(wanted, [a, b]) && Ordered(wanted, [b, a])
  {
    var all := WantedFunctions(FunctionFilter(None, 0, 0));
    KeepTwo(all, a, b);
    EitherOrder(a, b);
  }

  lemma KeepTwo(wanted: Row -> bool, a: Row, b: Row)
    requires wanted(a) && wanted(b)
    ensures Keep([a, b], wanted) == [a, b]
  {
    KeptFirst(wanted, b, []);
    KeptFirst(wanted, a, [b]);
    assert [b] + [] == [b] && [a] + [b] == [a, b];
  }

  lemma EitherOrder(a: Row, b: Row)
    requires a.createdAt == b.createdAt
    ensures Ordered([a, b], [a, b]) && Ordered([a, b], [b, a])
  {
    assert multiset([a, b]) == multiset([b, a]);
  }

  lemma KeptFirst(wanted: Row -> bool, row: Row, rows: seq<Row>)
    requires wanted(row)
    ensures Keep([row] + rows, wanted) == [row] + Keep(rows, wanted)
  {
    assert ([row] + rows)[1..] == rows;
  }

  /** Rows created at the same instant may be listed on two pages, at the cost of one that is on none. */
  lemma TiesMayRepeat(a: Row, b: Row)
    requires a != b && a.createdAt == b.createdAt
    ensures var all := WantedFunctions(FunctionFilter(None, 0, 0));
      Lists(all, 1, 0, [a, b], [a]) && Lists(all, 1, 1, [a, b], [a])
  {
    TwoWanted(a, b);
    assert [b, a][1..] == [a] && [a, b][..1] == [a];
    assert [a] == Window([a, b], 0, Some(1));
    assert [a] == Window([b, a], 1, Some(1));
  }
}
