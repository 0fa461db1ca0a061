/** The scopes an operation needs, read from the authorization source, and the prefilter
    scope that is emitted for each published route. */
module ScopePolicy {
  import opened MountedRoutes
  import opened Outcomes

  // ---------------------------------------------------------------- sets of actions

  /** An expression for a set of actions: a name, frozenset(...) with at most one argument,
      or a literal, whose elements are known actions or not. */
  datatype Expr = Named(name: string) | Frozen(argument: Option<Expr>) | Literal(items: seq<Option<string>>)

  type Bindings = map<string, Expr>

  predicate Unbound(values: Bindings, seen: set<string>, name: string) {
    name !in values || name in seen
  }

  lemma FewerNames(values: Bindings, seen: set<string>, name: string)
    requires name in values && name !in seen
    ensures |values.Keys - (seen + {name})| < |values.Keys - seen|
  {
    assert values.Keys - (seen + {name}) == (values.Keys - seen) - {name};
  }

  /** The elements of a literal: known actions, none twice. */
  function Members(items: seq<Option<string>>): Option<set<string>> {
    if items == [] then Some({})
    else
      var front, last := Members(items[..|items| - 1]), items[|items| - 1];
      if front == None || last == None || last.value in front.value then None else Some(front.value + {last.value})
  }

  ghost function ActionSet(values: Bindings, e: Expr, seen: set<string>): Option<set<string>>
    decreases |values.Keys - seen|, e
  {
    match e
    case Named(name) =>
      if Unbound(values, seen, name) then None
      else
        FewerNames(values, seen, name);
        ActionSet(values, values[name], seen + {name})
    case Frozen(None) => Some({})
    case Frozen(Some(argument)) => ActionSet(values, argument, seen)
    case Literal(items) => Members(items)
  }

  /** What an expression denotes, following these names one after the other. */
  ghost predicate Denotes(values: Bindings, e: Expr, names: seq<string>, actions: set<string>)
    decreases |names|, e
  {
    match e
    case Named(name) => names != [] && names[0] == name && name in values && Denotes(values, values[name], names[1..], actions)
    case Frozen(None) => names == [] && actions == {}
    case Frozen(Some(argument)) => Denotes(values, argument, names, actions)
    case Literal(items) => names == [] && Members(items) == Some(actions)
  }

  lemma {:induction false} MembersAreExact(items: seq<Option<string>>)
    ensures Members(items).Some? <==>
      (forall i :: 0 <= i < |items| ==> items[i].Some?) && (forall i, j :: 0 <= i < j < |items| ==> items[i] != items[j])
    ensures Members(items).Some? ==> forall x :: x in Members(items).value <==> Some(x) in items
  {
    if items != [] {
      var front, last := items[..|items| - 1], items[|items| - 1];
      MembersAreExact(front);
      assert items == front + [last];
      if Members(front).Some? && last.Some? {
        assert last.value in Members(front).value <==> last in front;
        assert last in front <==> exists i :: 0 <= i < |front| && items[i] == last;
      }
    }
  }

  lemma {:induction false} OneDenotation(values: Bindings, e: Expr, names: seq<string>, actions: set<string>,
                                         names': seq<string>, actions': set<string>)
    requires Denotes(values, e, names, actions) && Denotes(values, e, names', actions')
    ensures names == names' && actions == actions'
    decreases |names|, e
  {
    match e {
      case Named(name) =>
        OneDenotation(values, values[name], names[1..], actions, names'[1..], actions');
        assert names == [name] + names[1..] && names' == [name] + names'[1..];
      case Frozen(Some(argument)) => OneDenotation(values, argument, names, actions, names', actions');
      case _ =>
    }
  }

  /** A name on the way cannot come again: what it denotes would have to be reached by two
      different lists of names. */
  lemma {:induction false} NameOnce(values: Bindings, e: Expr, names: seq<string>, actions: set<string>, k: nat)
    requires Denotes(values, e, names, actions) && k < |names|
    ensures names[k] in values && Denotes(values, values[names[k]], names[k + 1..], actions)
    decreases |names|, e
  {
    match e {
      case Named(name) =>
        if k > 0 {
          NameOnce(values, values[name], names[1..], actions, k - 1);
          assert names[1..][k..] == names[k + 1..];
        }
      case Frozen(Some(argument)) => NameOnce(values, argument, names, actions, k);
      case _ =>
    }
  }

  lemma NoNameTwice(values: Bindings, e: Expr, names: seq<string>, actions: set<string>, i: nat, j: nat)
    requires Denotes(values, e, names, actions) && i < j < |names|
    ensures names[i] != names[j]
  {
    NameOnce(values, e, names, actions, i);
    NameOnce(values, e, names, actions, j);
    if names[i] == names[j] {
      OneDenotation(values, values[names[i]], names[i + 1..], actions, names[j + 1..], actions);
    }
  }

  lemma {:induction false} ReadingIsDenoting(values: Bindings, e: Expr, seen: set<string>) returns (names: seq<string>)
    requires ActionSet(values, e, seen).Some?
    ensures Denotes(values, e, names, ActionSet(values, e, seen).value)
    decreases |values.Keys - seen|, e
  {
    match e {
      case Named(name) =>
        FewerNames(values, seen, name);
        var more := ReadingIsDenoting(values, values[name], seen + {name});
        names := [name] + more;
      case Frozen(Some(argument)) => names := ReadingIsDenoting(values, argument, seen);
      case _ => names := [];
    }
  }

  lemma {:induction false} DenotingIsReading(values: Bindings, e: Expr, seen: set<string>, names: seq<string>, actions: set<string>)
    requires Denotes(values, e, names, actions)
    requires forall i :: 0 <= i < |names| ==> names[i] !in seen
    ensures ActionSet(values, e, seen) == Some(actions)
    decreases |names|, e
  {
    match e {
      case Named(name) =>
        forall i | 0 <= i < |names[1..]| ensures names[1..][i] !in seen + {name} {
          NoNameTwice(values, e, names, actions, 0, i + 1);
        }
        DenotingIsReading(values, values[name], seen + {name}, names[1..], actions);
      case Frozen(Some(argument)) => DenotingIsReading(values, argument, seen, names, actions);
      case _ =>
    }
  }

  ghost predicate Denoted(values: Bindings, e: Expr, actions: set<string>) {
    exists names :: Denotes(values, e, names, actions)
  }

  /** An expression is accepted with a set exactly if it denotes that set: following names
      ends, at known actions, none of them twice. Refusing a name seen before loses
      nothing, as a name that comes again never ends. */
  lemma ActionSetIsExact(values: Bindings, e: Expr, actions: set<string>)
    ensures ActionSet(values, e, {}) == Some(actions) <==> Denoted(values, e, actions)
  {
    if ActionSet(values, e, {}).Some? {
      var names := ReadingIsDenoting(values, e, {});
      assert Denoted(values, e, ActionSet(values, e, {}).value);
    }
    if Denoted(values, e, actions) {
      var names :| Denotes(values, e, names, actions);
      DenotingIsReading(values, e, {}, names, actions);
    }
  }

  // ---------------------------------------------------------------- emitted scopes

  /** The scopes that let a person or a machine perform an operation. */
  datatype Requirement = Requirement(human: set<string>, machine: set<string>, machineAllowed: bool)

  datatype PolicyRow = PolicyRow(verb: Verb, path: string, operations: seq<string>, scope: string)

  /** Who calls, and the scopes of the token. */
  datatype Caller = Person(scopes: set<string>) | Machine(scopes: set<string>)

  /** Who passes the scope check of the operation itself. */
  predicate MayPerform(c: Caller, r: Requirement) {
    match c
    case Person(scopes) => r.human <= scopes
    case Machine(scopes) => r.machineAllowed && r.machine <= scopes
  }

  /** Nobody who may perform the operation lacks the scope. */
  ghost predicate NeededFor(scope: string, r: Requirement) {
    forall c: Caller :: MayPerform(c, r) ==> scope in c.scopes
  }

  /** The scopes every caller that may perform the operation can be filtered by. */
  function Necessary(r: Requirement): set<string> {
    if r.machineAllowed then r.human * r.machine else r.human
  }

  /** They are exactly the scopes that no caller that may perform the operation lacks. */
  lemma NecessaryIsNeeded(scope: string, r: Requirement)
    ensures scope in Necessary(r) <==> NeededFor(scope, r)
  {
    if NeededFor(scope, r) {
      assert MayPerform(Person(r.human), r) && (r.machineAllowed ==> MayPerform(Machine(r.machine), r));
      assert scope in Person(r.human).scopes && (r.machineAllowed ==> scope in Machine(r.machine).scopes);
    }
  }

  /** A policy row is about a mounted route, lists its operations, and its scope is one that
      nobody who may perform one of them lacks. */
  ghost predicate RowAdmitted(row: PolicyRow, inventory: seq<Row>, requirements: map<string, Requirement>) {
    && IsPath(row.path) && Row(row.verb, row.path, row.operations) in inventory && row.operations != []
    && forall op :: op in row.operations ==> op in requirements && NeededFor(row.scope, requirements[op])
  }

  ghost predicate NoRouteTwice(rows: seq<PolicyRow>) {
    forall i, j :: 0 <= i < j < |rows| ==> (rows[i].verb, rows[i].path) != (rows[j].verb, rows[j].path)
  }

  method Candidates(operations: seq<string>, requirements: map<string, Requirement>) returns (r: Option<set<string>>)
    requires forall op :: op in operations ==> op in requirements
    ensures r == None <==> operations == []
    ensures r.Some? ==> forall scope :: scope in r.value <==> forall op :: op in operations ==> NeededFor(scope, requirements[op])
  {
    hide NeededFor, Necessary;
    r := None;
    for k := 0 to |operations|
      invariant r == None <==> k == 0
      invariant r.Some? ==>
        forall scope :: scope in r.value <==> forall op :: op in operations[..k] ==> NeededFor(scope, requirements[op])
    {
      var necessary := Necessary(requirements[operations[k]]);
      assert operations[..k + 1] == operations[..k] + [operations[k]];
      forall scope ensures scope in necessary <==> NeededFor(scope, requirements[operations[k]]) {
        NecessaryIsNeeded(scope, requirements[operations[k]]);
      }
      r := Some(if r == None then necessary else r.value * necessary);
    }
    assert operations[..|operations|] == operations;
  }

  /** The emitted table: accepted exactly if every policy row is admitted and no route comes
      twice, and then each listed route has its scope and no other route has one. The
      requirements cover every operation, and no two mounted routes are the same. */
  method VerifyRows(rows: seq<PolicyRow>, inventory: seq<Row>, requirements: map<string, Requirement>)
    returns (table: Option<map<(Verb, string), string>>)
    requires forall row :: row in inventory ==> forall op :: op in row.operations ==> op in requirements
    requires forall i, j :: 0 <= i < j < |inventory| ==> (inventory[i].verb, inventory[i].path) != (inventory[j].verb, inventory[j].path)
    ensures table.Some? <==> NoRouteTwice(rows) && forall row :: row in rows ==> RowAdmitted(row, inventory, requirements)
    ensures table.Some? ==> forall row :: row in rows ==> (row.verb, row.path) in table.value && table.value[(row.verb, row.path)] == row.scope
    ensures table.Some? ==> forall key :: key in table.value ==>
      exists row :: row in rows && key == (row.verb, row.path) && table.value[key] == row.scope
  {
    hide NeededFor;
    var output: map<(Verb, string), string> := map[];
    for k := 0 to |rows|
      invariant NoRouteTwice(rows[..k]) && forall row :: row in rows[..k] ==> RowAdmitted(row, inventory, requirements)
      invariant forall row :: row in rows[..k] ==> (row.verb, row.path) in output && output[(row.verb, row.path)] == row.scope
      invariant forall key :: key in output ==>
        exists row :: row in rows[..k] && key == (row.verb, row.path) && output[key] == row.scope
    {
      var row := rows[k];
      assert row in rows;
      var mounted := Row(row.verb, row.path, row.operations);
      assert rows[..k + 1] == rows[..k] + [row];
      if !IsPath(row.path) || mounted !in inventory || row.operations == [] { return None; }
      if (row.verb, row.path) in output { return None; }
      assert forall op :: op in mounted.operations ==> op in requirements;
      var candidates := Candidates(row.operations, requirements);
      if row.scope !in candidates.value { return None; }
      output := output[(row.verb, row.path) := row.scope];
    }
    assert rows[..|rows|] == rows;
    table := Some(output);
  }
}
