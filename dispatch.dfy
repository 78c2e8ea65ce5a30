/**
 * The reflective command dispatcher of the plugin (`Chromecast.execute`).
 *
 * A command arrives as an action name and a JSON array of positional
 * arguments. The dispatcher scans the plugin's public methods in table order
 * and picks the first one whose name is the action, whose parameter count is
 * one more than the number of arguments (the trailing callback context), and
 * whose declared parameter types are EXACTLY the runtime classes of the
 * arguments. It then builds the argument array, appends the callback context,
 * invokes the method and turns every reflective failure into `false`.
 */
module Dispatch {
  import opened Wrappers

  /** A Java `int` / `Integer` value. */
  type Int32 = x: int | -0x8000_0000 <= x < 0x8000_0000

  /** Identifies the host's callback context (one per command). */
  type CallbackId = nat

  /**
   * Java types that occur as declared parameter types of the plugin's public
   * methods, and runtime classes of values read from a JSON array.
   */
  datatype Kind =
    | StringClass
    | IntegerClass
    | LongClass
    | DoubleClass
    | BooleanClass
    | JsonObjectClass
    | JsonArrayClass
    | JsonNullClass
    | PrimitiveDouble
    | PrimitiveBoolean
    | CallbackContextClass

  /** A value taken out of the command's JSON argument array. */
  datatype Arg =
    | JString(s: string)
    | JInteger(i: Int32)
    | JLong(l: int)
    | JDouble(d: real)
    | JBoolean(b: bool)
    | JObject(json: string)
    | JArray(json: string)
    | JNull

  /** `args.get(i).getClass()`: the runtime class of a JSON value. */
  function ClassOf(a: Arg): (k: Kind)
    ensures k != PrimitiveDouble && k != PrimitiveBoolean && k != CallbackContextClass
  {
    match a
    case JString(_) => StringClass
    case JInteger(_) => IntegerClass
    case JLong(_) => LongClass
    case JDouble(_) => DoubleClass
    case JBoolean(_) => BooleanClass
    case JObject(_) => JsonObjectClass
    case JArray(_) => JsonArrayClass
    case JNull => JsonNullClass
  }

  /**
   * One entry of the method table: the method it denotes (`target`), its
   * name, its declared parameter types and whether it returns `boolean`.
   */
  datatype MethodSig<+M> = MethodSig(target: M, name: string, params: seq<Kind>, returnsBool: bool)

  /** The arity and exact-class test of lines 67-77. */
  predicate ArgsFit(params: seq<Kind>, args: seq<Arg>) {
    && |params| == |args| + 1
    && forall i :: 0 <= i < |args| ==> params[i] == ClassOf(args[i])
  }

  predicate Matches<M>(m: MethodSig<M>, action: string, args: seq<Arg>) {
    m.name == action && ArgsFit(m.params, args)
  }

  /** Reference definition of the search: the first matching entry in table order. */
  function FirstMatch<M>(table: seq<MethodSig<M>>, action: string, args: seq<Arg>): (r: Option<nat>)
    ensures r.Some? ==> r.value < |table| && Matches(table[r.value], action, args)
    ensures r.Some? ==> forall j :: 0 <= j < r.value ==> !Matches(table[j], action, args)
    ensures r.None? <==> forall j :: 0 <= j < |table| ==> !Matches(table[j], action, args)
  {
    if table == [] then None
    else if Matches(table[0], action, args) then Some(0)
    else match FirstMatch(table[1..], action, args)
      case None => None
      case Some(k) => Some(k + 1)
  }

  /** The nested search loops of `execute`, lines 62-84. */
  method Resolve<M>(table: seq<MethodSig<M>>, action: string, args: seq<Arg>) returns (found: Option<nat>)
    ensures found == FirstMatch(table, action, args)
    ensures found.Some? ==> found.value < |table| && Matches(table[found.value], action, args)
    ensures found.None? <==> forall j :: 0 <= j < |table| ==> !Matches(table[j], action, args)
  {
    found := None;
    var k := 0;
    while k < |table|
      invariant 0 <= k <= |table|
      invariant forall j :: 0 <= j < k ==> !Matches(table[j], action, args)
    {
      var m := table[k];
      if m.name == action {
        var types := m.params;
        if |args| + 1 == |types| {
          var isValid := true;
          var i := 0;
          while i < |args|
            invariant 0 <= i <= |args|
            invariant isValid
            invariant forall t :: 0 <= t < i ==> types[t] == ClassOf(args[t])
          {
            if types[i] == ClassOf(args[i]) {
              isValid := true;
            } else {
              isValid := false;
              break;
            }
            i := i + 1;
          }
          if isValid {
            found := Some(k);
            break;
          }
        }
      }
      k := k + 1;
    }
  }

  /** A slot of the `Object[]` handed to `Method.invoke`. */
  datatype Value = Null | ArgValue(arg: Arg) | CallbackValue(callback: CallbackId)

  /**
   * Lines 86-91: an array as long as the parameter list, the arguments in
   * their positions and the callback context in the last slot.
   */
  method BindArguments(params: seq<Kind>, args: seq<Arg>, callback: CallbackId) returns (variableArgs: array<Value>)
    requires |params| == |args| + 1
    ensures fresh(variableArgs)
    ensures variableArgs.Length == |params|
    ensures forall i :: 0 <= i < |args| ==> variableArgs[i] == ArgValue(args[i])
    ensures variableArgs[variableArgs.Length - 1] == CallbackValue(callback)
  {
    variableArgs := new Value[|params|](_ => Null);
    var i := 0;
    while i < |args|
      invariant 0 <= i <= |args|
      invariant forall t :: 0 <= t < i ==> variableArgs[t] == ArgValue(args[t])
    {
      variableArgs[i] := ArgValue(args[i]);
      i := i + 1;
    }
    variableArgs[variableArgs.Length - 1] := CallbackValue(callback);
  }

  /**
   * Whether `Method.invoke` accepts a value for a parameter of the given
   * declared type: a reference of that very class, an unboxable wrapper for
   * a primitive, or `null` for a reference type. Anything else raises
   * IllegalArgumentException.
   */
  predicate Assignable(k: Kind, v: Value) {
    match v
    case Null => k != PrimitiveDouble && k != PrimitiveBoolean
    case ArgValue(a) =>
      || ClassOf(a) == k
      || (k == PrimitiveDouble && (a.JDouble? || a.JInteger? || a.JLong?))
      || (k == PrimitiveBoolean && a.JBoolean?)
    case CallbackValue(_) => k == CallbackContextClass
  }

  predicate Accepts(params: seq<Kind>, values: seq<Value>) {
    |params| == |values| && forall i :: 0 <= i < |values| ==> Assignable(params[i], values[i])
  }

  /** The outcome of running the invoked method: its `boolean` result, or an exception it threw. */
  datatype Outcome = Returned(value: bool) | Threw

  /**
   * Lines 92-111: the value `execute` returns once a resolved method has been
   * invoked. An exception thrown by the method gives `false`; otherwise a
   * `boolean` method's own result is returned and any other method counts as
   * handled. (An argument array `invoke` rejects never reaches the method;
   * `execute` answers `false` for it directly.)
   */
  function ExecuteResult(returnsBool: bool, outcome: Outcome): (handled: bool)
    ensures outcome.Threw? ==> !handled
    ensures outcome.Returned? ==> (handled <==> (returnsBool ==> outcome.value))
  {
    match outcome
    case Threw => false
    case Returned(b) => if returnsBool then b else true
  }

  /**
   * A resolved method accepts its bound arguments exactly when its last
   * declared parameter is the callback context type: the JSON arguments
   * already have the declared classes.
   */
  lemma {:induction false} BoundArgumentsAccepted(params: seq<Kind>, args: seq<Arg>, callback: CallbackId)
    requires ArgsFit(params, args)
    ensures var bound := seq(|args|, i requires 0 <= i < |args| => ArgValue(args[i])) + [CallbackValue(callback)];
      Accepts(params, bound) <==> params[|args|] == CallbackContextClass
  {
    var bound := seq(|args|, i requires 0 <= i < |args| => ArgValue(args[i])) + [CallbackValue(callback)];
    assert bound[|args|] == CallbackValue(callback);
    if params[|args|] == CallbackContextClass {
      forall i | 0 <= i < |bound| ensures Assignable(params[i], bound[i]) {
        if i < |args| {
          assert bound[i] == ArgValue(args[i]);
        }
      }
    }
  }

  /**
   * With no arguments only the name and the arity are checked: any entry
   * called `action` with a single parameter matches, whatever that
   * parameter's type is.
   */
  lemma NoArgumentsMatchOnNameAndArity<M>(m: MethodSig<M>, action: string)
    ensures Matches(m, action, []) <==> m.name == action && |m.params| == 1
  {
  }

  /** An entry that declares a primitive parameter before the callback is never selected. */
  lemma PrimitiveParameterNeverMatches<M>(m: MethodSig<M>, action: string, args: seq<Arg>, i: nat)
    requires i < |args| && i < |m.params|
    requires m.params[i] == PrimitiveDouble || m.params[i] == PrimitiveBoolean
    ensures !Matches(m, action, args)
  {
  }

  /**
   * When no two entries share a name the search does not depend on table
   * order: a matching entry is THE result.
   */
  lemma {:induction false} DistinctNamesDetermineMatch<M>(table: seq<MethodSig<M>>, action: string, args: seq<Arg>, k: nat)
    requires forall i, j :: 0 <= i < j < |table| ==> table[i].name != table[j].name
    requires k < |table| && Matches(table[k], action, args)
    ensures FirstMatch(table, action, args) == Some(k)
  {
    var r := FirstMatch(table, action, args);
    assert r.Some?;
    assert table[r.value].name == action == table[k].name;
  }
}
