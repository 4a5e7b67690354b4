/** The option set of one decorator (`DecoratorArguments`): a name table
    built once, override writes, and the snapshot handed to the template. */
module ArgumentSet {
  import opened Values
  import opened Errors
  import opened Argument

  /** The state of several descriptors, keyed by object: the same descriptor
      can be the default of several parameters. */
  type Store = map<DecoratorArgument, Desc>

  /** A name table: `arg_getter`. */
  type NameTable = map<Option<string>, DecoratorArgument>

  function Objects(args: seq<DecoratorArgument>): set<DecoratorArgument>
  {
    set a | a in args
  }

  function StoreOf(objs: set<DecoratorArgument>): (st: Store)
    reads objs
    ensures st.Keys == objs
  {
    map a | a in objs :: a.View()
  }

  /** Every descriptor of `args` has a state in `st`. */
  ghost predicate Covers(args: seq<DecoratorArgument>, st: Store)
  {
    forall a | a in args :: a in st
  }

  /** Every descriptor the table names has a state in `st`. */
  ghost predicate TableIn(table: NameTable, st: Store)
  {
    forall k | k in table :: table[k] in st
  }

  /** `_set_getter`: `{arg.arg_name: arg for arg in arguments}`, read left
      to right. */
  function Table(args: seq<DecoratorArgument>, st: Store): (t: NameTable)
    requires Covers(args, st)
    ensures forall k | k in t :: t[k] in args && st[t[k]].name == k
  {
    if args == [] then map[]
    else
      var last := args[|args| - 1];
      Table(args[..|args| - 1], st)[st[last].name := last]
  }

  /** `_get_args`: `{arg.arg_name: arg.value for arg in arguments}`. */
  function Snapshot(args: seq<DecoratorArgument>, st: Store): (m: map<Option<string>, Value>)
    requires Covers(args, st)
    ensures forall k | k in m :: exists i :: 0 <= i < |args| && st[args[i]].name == k && st[args[i]].value == m[k]
  {
    if args == [] then map[]
    else
      var init := args[..|args| - 1];
      var last := args[|args| - 1];
      var m := Snapshot(init, st);
      assert forall k | k in m :: exists i :: 0 <= i < |args| && st[args[i]].name == k && st[args[i]].value == m[k] by {
        forall k | k in m ensures exists i :: 0 <= i < |args| && st[args[i]].name == k && st[args[i]].value == m[k] {
          var i :| 0 <= i < |init| && st[init[i]].name == k && st[init[i]].value == m[k];
          assert args[i] == init[i];
        }
      }
      m[st[last].name := st[last].value]
  }

  /** The table holds exactly the descriptors' names. */
  lemma {:induction false} TableKeys(args: seq<DecoratorArgument>, st: Store)
    requires Covers(args, st)
    ensures forall k :: k in Table(args, st) <==> exists i :: 0 <= i < |args| && st[args[i]].name == k
  {
    if args != [] {
      var n := |args| - 1;
      var init := args[..n];
      assert Covers(init, st);
      TableKeys(init, st);
      forall k | k != st[args[n]].name && exists i :: 0 <= i < |args| && st[args[i]].name == k
        ensures k in Table(args, st)
      {
        var i :| 0 <= i < |args| && st[args[i]].name == k;
        assert init[i] == args[i];
      }
    }
  }

  /** When names repeat, the later descriptor wins. */
  lemma {:induction false} TableLastWins(args: seq<DecoratorArgument>, st: Store, i: nat)
    requires Covers(args, st)
    requires i < |args|
    requires forall j | i < j < |args| :: st[args[j]].name != st[args[i]].name
    ensures st[args[i]].name in Table(args, st)
    ensures Table(args, st)[st[args[i]].name] == args[i]
  {
    var n := |args| - 1;
    if i < n {
      assert Covers(args[..n], st);
      TableLastWins(args[..n], st, i);
    }
  }

  /** The snapshot has the table's keys, and under each name the value of the
      descriptor the table holds for it. */
  lemma {:induction false} SnapshotAgreesWithTable(args: seq<DecoratorArgument>, st: Store)
    requires Covers(args, st)
    ensures Snapshot(args, st).Keys == Table(args, st).Keys
    ensures forall k | k in Table(args, st) :: Snapshot(args, st)[k] == st[Table(args, st)[k]].value
  {
    if args != [] {
      assert Covers(args[..|args| - 1], st);
      SnapshotAgreesWithTable(args[..|args| - 1], st);
    }
  }

  /** The table depends on the descriptors' names only. */
  lemma {:induction false} TableDependsOnNames(args: seq<DecoratorArgument>, st1: Store, st2: Store)
    requires Covers(args, st1) && Covers(args, st2)
    requires forall a | a in args :: st1[a].name == st2[a].name
    ensures Table(args, st1) == Table(args, st2)
  {
    if args != [] {
      var init := args[..|args| - 1];
      assert Covers(init, st1) && Covers(init, st2);
      TableDependsOnNames(init, st1, st2);
    }
  }

  /** The override `key` writes into descriptor `a`. */
  ghost predicate Targets(table: NameTable, key: string, a: DecoratorArgument)
  {
    Some(key) in table && table[Some(key)] == a
  }

  /** `_set_args`: each override, in order, is written into the descriptor
      the table holds under its name; the first unknown name or rejected
      value stops the loop, and the writes before it persist. */
  function ApplyOverrides(table: NameTable, st: Store, overrides: seq<(string, Value)>): (r: (Outcome, Store))
    requires TableIn(table, st)
    ensures r.1.Keys == st.Keys
    ensures forall a | a in st :: r.1[a] == st[a].(value := r.1[a].value)
    decreases |overrides|
  {
    if overrides == [] then (Pass, st)
    else
      var key := overrides[0].0;
      if Some(key) !in table then (Fail(UnknownOption(key)), st)
      else
        var a := table[Some(key)];
        var (d, o) := WriteValue(st[a], overrides[0].1);
        if o.Fail? then (o, st[a := d])
        else ApplyOverrides(table, st[a := d], overrides[1..])
  }

  /** Override `kv` names a known option and its value passes that option's
      type check. */
  ghost predicate Accepted(table: NameTable, st: Store, kv: (string, Value))
    requires TableIn(table, st)
  {
    Some(kv.0) in table && WriteValue(st[table[Some(kv.0)]], kv.1).1 == Pass
  }

  /** Resolution succeeds exactly when every override names a known option
      and passes its type check. */
  lemma {:induction false} ApplyOverridesPassIff(table: NameTable, st: Store, overrides: seq<(string, Value)>)
    requires TableIn(table, st)
    ensures ApplyOverrides(table, st, overrides).0 == Pass <==>
      forall j | 0 <= j < |overrides| :: Accepted(table, st, overrides[j])
  {
    if overrides != [] {
      var key := overrides[0].0;
      if Some(key) in table {
        var a := table[Some(key)];
        var (d, o) := WriteValue(st[a], overrides[0].1);
        if o.Pass? {
          var st' := st[a := d];
          ApplyOverridesPassIff(table, st', overrides[1..]);
          forall j | 0 <= j < |overrides[1..]|
            ensures Accepted(table, st', overrides[1..][j]) == Accepted(table, st, overrides[j + 1])
          {
          }
        }
      }
    }
  }

  /** Running two override lists one after the other is running their
      concatenation: a failure in the first stops before the second. */
  lemma {:induction false} ApplyOverridesAppend(table: NameTable, st: Store, first: seq<(string, Value)>, second: seq<(string, Value)>)
    requires TableIn(table, st)
    ensures var (o, st1) := ApplyOverrides(table, st, first);
      ApplyOverrides(table, st, first + second) ==
        if o.Fail? then (o, st1) else ApplyOverrides(table, st1, second)
  {
    if first != [] {
      assert (first + second)[0] == first[0];
      assert (first + second)[1..] == first[1..] + second;
      var key := first[0].0;
      if Some(key) in table {
        var a := table[Some(key)];
        var (d, o) := WriteValue(st[a], first[0].1);
        if o.Pass? {
          ApplyOverridesAppend(table, st[a := d], first[1..], second);
        }
      }
    } else {
      assert first + second == second;
    }
  }

  /** An override naming no option fails with UnknownOption, and the store
      keeps every write made before it. */
  lemma UnknownOverrideStops(table: NameTable, st: Store, overrides: seq<(string, Value)>, j: nat)
    requires TableIn(table, st)
    requires j < |overrides| && Some(overrides[j].0) !in table
    requires ApplyOverrides(table, st, overrides[..j]).0 == Pass
    ensures ApplyOverrides(table, st, overrides) ==
      (Fail(UnknownOption(overrides[j].0)), ApplyOverrides(table, st, overrides[..j]).1)
  {
    assert overrides == overrides[..j] + overrides[j..];
    ApplyOverridesAppend(table, st, overrides[..j], overrides[j..]);
  }

  /** A rejected override fails with TypeMismatch, and the rejected value
      stays stored in its descriptor. */
  lemma RejectedOverrideStays(table: NameTable, st: Store, overrides: seq<(string, Value)>, j: nat)
    requires TableIn(table, st)
    requires j < |overrides| && Some(overrides[j].0) in table
    requires ApplyOverrides(table, st, overrides[..j]).0 == Pass
    requires !Accepted(table, ApplyOverrides(table, st, overrides[..j]).1, overrides[j])
    ensures ApplyOverrides(table, st, overrides).0.Fail?
    ensures ApplyOverrides(table, st, overrides).0.error.TypeMismatch?
    ensures ApplyOverrides(table, st, overrides).1[table[Some(overrides[j].0)]].value == overrides[j].1
  {
    assert overrides == overrides[..j] + overrides[j..];
    ApplyOverridesAppend(table, st, overrides[..j], overrides[j..]);
  }

  /** After a successful resolution each descriptor holds the value of the
      last override written into it, or its old value when none was. */
  lemma {:induction false} ApplyOverridesFinalValues(table: NameTable, st: Store, overrides: seq<(string, Value)>)
    requires TableIn(table, st)
    requires ApplyOverrides(table, st, overrides).0 == Pass
    ensures forall a | a in st && (forall j | 0 <= j < |overrides| :: !Targets(table, overrides[j].0, a)) ::
      ApplyOverrides(table, st, overrides).1[a].value == st[a].value
    ensures forall i | 0 <= i < |overrides| && Some(overrides[i].0) in table &&
        (forall j | i < j < |overrides| :: !Targets(table, overrides[j].0, table[Some(overrides[i].0)])) ::
      ApplyOverrides(table, st, overrides).1[table[Some(overrides[i].0)]].value == overrides[i].1
  {
    if overrides != [] {
      var key := overrides[0].0;
      var a0 := table[Some(key)];
      var (d, o) := WriteValue(st[a0], overrides[0].1);
      var st' := st[a0 := d];
      var rest := overrides[1..];
      ApplyOverridesFinalValues(table, st', rest);
      var r := ApplyOverrides(table, st, overrides).1;
      assert r == ApplyOverrides(table, st', rest).1;
      forall i | 0 <= i < |overrides| && Some(overrides[i].0) in table &&
          (forall j | i < j < |overrides| :: !Targets(table, overrides[j].0, table[Some(overrides[i].0)]))
        ensures r[table[Some(overrides[i].0)]].value == overrides[i].1
      {
        if i == 0 {
          forall j | 0 <= j < |rest| ensures !Targets(table, rest[j].0, a0) {
            assert rest[j] == overrides[j + 1];
          }
        } else {
          assert rest[i - 1] == overrides[i];
          forall j | i - 1 < j < |rest| ensures !Targets(table, rest[j].0, table[Some(overrides[i].0)]) {
            assert rest[j] == overrides[j + 1];
          }
        }
      }
      forall a | a in st && (forall j | 0 <= j < |overrides| :: !Targets(table, overrides[j].0, a))
        ensures r[a].value == st[a].value
      {
        assert !Targets(table, overrides[0].0, a);
        forall j | 0 <= j < |rest| ensures !Targets(table, rest[j].0, a) {
          assert rest[j] == overrides[j + 1];
        }
      }
    }
  }

  /** Override `i` is the last one given for its name. */
  ghost predicate LastOverride(overrides: seq<(string, Value)>, i: int)
  {
    0 <= i < |overrides| && forall j | i < j < |overrides| :: overrides[j].0 != overrides[i].0
  }

  /** Resolution against the set's own table: under the name of an
      override, the snapshot holds the last value given for that name. */
  lemma OverridesVisibleInSnapshot(args: seq<DecoratorArgument>, st: Store, overrides: seq<(string, Value)>, i: nat)
    requires Covers(args, st)
    requires TableIn(Table(args, st), st)
    requires ApplyOverrides(Table(args, st), st, overrides).0 == Pass
    requires i < |overrides| && forall j | i < j < |overrides| :: overrides[j].0 != overrides[i].0
    ensures var st' := ApplyOverrides(Table(args, st), st, overrides).1;
      Covers(args, st') && Some(overrides[i].0) in Snapshot(args, st') &&
      Snapshot(args, st')[Some(overrides[i].0)] == overrides[i].1
  {
    var table := Table(args, st);
    var st' := ApplyOverrides(table, st, overrides).1;
    assert Covers(args, st');
    TableDependsOnNames(args, st, st');
    SnapshotAgreesWithTable(args, st');
    ApplyOverridesPassIff(table, st, overrides);
    ApplyOverridesFinalValues(table, st, overrides);
    assert Accepted(table, st, overrides[i]);
    var a := table[Some(overrides[i].0)];
    forall j | i < j < |overrides| ensures !Targets(table, overrides[j].0, a) {
    }
  }

  /** Resolution against the set's own table keeps the snapshot's names,
      and a name no override mentions keeps its value. */
  lemma SnapshotKeepsOtherNames(args: seq<DecoratorArgument>, st: Store, overrides: seq<(string, Value)>, k: Option<string>)
    requires Covers(args, st)
    requires TableIn(Table(args, st), st)
    requires ApplyOverrides(Table(args, st), st, overrides).0 == Pass
    requires k in Snapshot(args, st) && forall j | 0 <= j < |overrides| :: Some(overrides[j].0) != k
    ensures var st' := ApplyOverrides(Table(args, st), st, overrides).1;
      Covers(args, st') && Snapshot(args, st').Keys == Snapshot(args, st).Keys &&
      Snapshot(args, st')[k] == Snapshot(args, st)[k]
  {
    var table := Table(args, st);
    var st' := ApplyOverrides(table, st, overrides).1;
    assert Covers(args, st');
    TableDependsOnNames(args, st, st');
    SnapshotAgreesWithTable(args, st);
    SnapshotAgreesWithTable(args, st');
    ApplyOverridesFinalValues(table, st, overrides);
    var a := table[k];
    forall j | 0 <= j < |overrides| ensures !Targets(table, overrides[j].0, a) {
    }
  }

  class DecoratorArguments {
    const arguments: seq<DecoratorArgument>
    const argGetter: NameTable

    /** Every entry of the name table is one of the set's descriptors. */
    ghost predicate Valid()
    {
      forall k | k in argGetter :: argGetter[k] in arguments
    }

    /** The name table agrees with the names the descriptors carry now. */
    ghost predicate InSync()
      reads Objects(arguments)
    {
      argGetter == Table(arguments, StoreOf(Objects(arguments)))
    }

    /** The name table is built once, from the names the descriptors carry
        now. */
    constructor (arguments: seq<DecoratorArgument>)
      ensures this.arguments == arguments
      ensures argGetter == Table(arguments, StoreOf(Objects(arguments)))
      ensures InSync()
      ensures Valid()
    {
      var st := StoreOf(Objects(arguments));
      this.arguments := arguments;
      this.argGetter := Table(arguments, st);
    }

    method SetArgs(overrides: seq<(string, Value)>) returns (o: Outcome)
      requires Valid()
      modifies Objects(arguments)
      ensures TableIn(argGetter, old(StoreOf(Objects(arguments))))
      ensures (o, StoreOf(Objects(arguments))) ==
        ApplyOverrides(argGetter, old(StoreOf(Objects(arguments))), overrides)
    {
      ghost var objs := Objects(arguments);
      var i := 0;
      while i < |overrides|
        invariant 0 <= i <= |overrides|
        invariant TableIn(argGetter, StoreOf(objs))
        invariant ApplyOverrides(argGetter, StoreOf(objs), overrides[i..]) ==
          ApplyOverrides(argGetter, old(StoreOf(objs)), overrides)
      {
        var key := overrides[i].0;
        if Some(key) !in argGetter {
          return Fail(UnknownOption(key));
        }
        var a := argGetter[Some(key)];
        ghost var before := StoreOf(objs);
        o := a.SetValue(overrides[i].1);
        assert StoreOf(objs) == before[a := WriteValue(before[a], overrides[i].1).0];
        if o.Fail? {
          return;
        }
        i := i + 1;
      }
      return Pass;
    }

    /** `get_decorated_args`: write the overrides, then snapshot every
        descriptor's name and value. */
    method GetDecoratedArgs(overrides: seq<(string, Value)>) returns (r: Result<map<Option<string>, Value>>)
      requires Valid()
      modifies Objects(arguments)
      ensures TableIn(argGetter, old(StoreOf(Objects(arguments))))
      ensures var (o, st) := ApplyOverrides(argGetter, old(StoreOf(Objects(arguments))), overrides);
        && StoreOf(Objects(arguments)) == st
        && r == if o.Fail? then Err(o.error) else Ok(Snapshot(arguments, st))
      ensures old(InSync()) ==> InSync()
      ensures old(InSync()) && r.Ok? ==> forall i | LastOverride(overrides, i) ::
        Some(overrides[i].0) in r.value && r.value[Some(overrides[i].0)] == overrides[i].1
    {
      ghost var before := StoreOf(Objects(arguments));
      var o := SetArgs(overrides);
      // Writes change values only, so the table still matches the names.
      assert Covers(arguments, before) && Covers(arguments, StoreOf(Objects(arguments)));
      TableDependsOnNames(arguments, before, StoreOf(Objects(arguments)));
      if o.Fail? {
        return Err(o.error);
      }
      if old(InSync()) {
        forall i | LastOverride(overrides, i)
          ensures var m := Snapshot(arguments, StoreOf(Objects(arguments)));
            Some(overrides[i].0) in m && m[Some(overrides[i].0)] == overrides[i].1
        {
          OverridesVisibleInSnapshot(arguments, before, overrides, i);
        }
      }
      return Ok(Snapshot(arguments, StoreOf(Objects(arguments))));
    }
  }
}
