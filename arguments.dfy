/**
 * Launch arguments as MinecraftGameProvider uses them: `--key value` pairs kept in first-insertion
 * order (a linked hash map) plus the remaining "extra" tokens in order. ArgState is the abstract
 * value; the class Arguments holds it in fields that parse and remove update in place.
 */
module LaunchArguments {
  import opened Wrappers
  import opened Strings

  /**
   * Key of the game-version override. The provider names it Arguments.GAME_VERSION, the same
   * constant name as the system property it falls back to; the model takes the property's name,
   * and no proof depends on the string.
   */
  const GAME_VERSION := "loader.gameVersion"

  const KEY_PREFIX := "--"

  /** `s` with every occurrence of `x` taken out. */
  function Without(s: seq<string>, x: string): seq<string> {
    if s == [] then [] else (if s[0] == x then [] else [s[0]]) + Without(s[1..], x)
  }

  lemma {:induction false} WithoutMembers(s: seq<string>, x: string)
    ensures forall y :: y in Without(s, x) <==> y in s && y != x
    decreases |s|
  {
    if s != [] {
      WithoutMembers(s[1..], x);
    }
  }

  predicate Distinct(s: seq<string>) {
    forall i, j :: 0 <= i < j < |s| ==> s[i] != s[j]
  }

  lemma {:induction false} WithoutDistinct(s: seq<string>, x: string)
    requires Distinct(s)
    ensures Distinct(Without(s, x))
    decreases |s|
  {
    if s != [] {
      assert Distinct(s[1..]) by {
        forall i, j | 0 <= i < j < |s| - 1 ensures s[1..][i] != s[1..][j] {
          assert s[1..][i] == s[i + 1] && s[1..][j] == s[j + 1];
        }
      }
      WithoutDistinct(s[1..], x);
      WithoutMembers(s[1..], x);
      assert s[0] !in s[1..];
    }
  }

  /** The key/value map in insertion order and the extra tokens. */
  datatype ArgState = ArgState(order: seq<string>, values: map<string, string>, extras: seq<string>) {

    ghost predicate Valid() {
      Distinct(order) && forall k :: k in order <==> k in values
    }

    /** LinkedHashMap.put: a new key goes last, an existing key keeps its place. */
    function Put(key: string, value: string): ArgState {
      ArgState(if key in values then order else order + [key], values[key := value], extras)
    }

    function AddExtra(token: string): ArgState {
      ArgState(order, values, extras + [token])
    }

    function Remove(key: string): ArgState {
      if key in values then ArgState(Without(order, key), values - {key}, extras) else this
    }

    /** Arguments.toArray: each pair as `--key`, `value` in key order, then the extras. */
    function ToArray(): seq<string> {
      Flatten(order, values) + extras
    }
  }

  const Empty := ArgState([], map[], [])

  /** The pairs in key order; a key without a value (never the case in a Valid state) prints as "". */
  function Flatten(order: seq<string>, values: map<string, string>): seq<string> {
    if order == [] then []
    else [KEY_PREFIX + order[0], if order[0] in values then values[order[0]] else ""] + Flatten(order[1..], values)
  }

  lemma {:induction false} FlattenLength(order: seq<string>, values: map<string, string>)
    ensures |Flatten(order, values)| == 2 * |order|
    decreases |order|
  {
    if order != [] {
      FlattenLength(order[1..], values);
    }
  }

  /** toArray prints two tokens per key, and the extras last in their own order. */
  lemma ToArrayShape(st: ArgState)
    ensures |st.ToArray()| == 2 * |st.order| + |st.extras|
    ensures st.ToArray()[2 * |st.order|..] == st.extras
  {
    FlattenLength(st.order, st.values);
  }

  lemma PutValid(st: ArgState, key: string, value: string)
    requires st.Valid()
    ensures st.Put(key, value).Valid()
  {
  }

  lemma RemoveValid(st: ArgState, key: string)
    requires st.Valid()
    ensures st.Remove(key).Valid()
  {
    WithoutDistinct(st.order, key);
    WithoutMembers(st.order, key);
  }

  /** Removing a key forgets it and keeps every other pair, the key order of the rest and the extras. */
  lemma RemoveForgetsKey(st: ArgState, key: string)
    ensures key !in st.Remove(key).values
    ensures forall k :: k != key ==> (k in st.Remove(key).values <==> k in st.values)
    ensures forall k :: k != key && k in st.values ==> st.Remove(key).values[k] == st.values[k]
    ensures st.Remove(key).order == Without(st.order, key) || key !in st.values
    ensures st.Remove(key).extras == st.extras
  {
  }

  /** A second removal of the same key changes nothing. */
  lemma RemoveIdempotent(st: ArgState, key: string)
    ensures st.Remove(key).Remove(key) == st.Remove(key)
  {
  }

  /**
   * Arguments.parse over the tokens still to read, starting from `acc`: a token starting with
   * "--" that is not the last one is a key; its value is the next token, unless that one also
   * starts with "--", in which case the value is "" and the next token is read as usual.
   * Every other token is an extra.
   */
  function ParseFrom(args: seq<string>, acc: ArgState): ArgState
    decreases |args|
  {
    if args == [] then acc
    else if StartsWith(args[0], KEY_PREFIX) && |args| > 1 then
      if StartsWith(args[1], KEY_PREFIX) then ParseFrom(args[1..], acc.Put(args[0][2..], ""))
      else ParseFrom(args[2..], acc.Put(args[0][2..], args[1]))
    else ParseFrom(args[1..], acc.AddExtra(args[0]))
  }

  function Parse(args: seq<string>): ArgState {
    ParseFrom(args, Empty)
  }

  lemma {:induction false} ParseFromValid(args: seq<string>, acc: ArgState)
    requires acc.Valid()
    ensures ParseFrom(args, acc).Valid()
    decreases |args|
  {
    if args != [] {
      if StartsWith(args[0], KEY_PREFIX) && |args| > 1 {
        if StartsWith(args[1], KEY_PREFIX) {
          PutValid(acc, args[0][2..], "");
          ParseFromValid(args[1..], acc.Put(args[0][2..], ""));
        } else {
          PutValid(acc, args[0][2..], args[1]);
          ParseFromValid(args[2..], acc.Put(args[0][2..], args[1]));
        }
      } else {
        ParseFromValid(args[1..], acc.AddExtra(args[0]));
      }
    }
  }

  /**
   * A key no token spells out as `--key` is left alone by parsing: present afterwards exactly
   * when present before, with the same value.
   */
  lemma {:induction false} ParseFromKeepsKey(args: seq<string>, acc: ArgState, key: string)
    requires forall i :: 0 <= i < |args| ==> args[i] != KEY_PREFIX + key
    ensures key in ParseFrom(args, acc).values <==> key in acc.values
    ensures key in acc.values ==> ParseFrom(args, acc).values[key] == acc.values[key]
    decreases |args|
  {
    if args != [] {
      assert forall i :: 0 <= i < |args| - 1 ==> args[1..][i] == args[i + 1];
      if StartsWith(args[0], KEY_PREFIX) && |args| > 1 {
        assert args[0] == KEY_PREFIX + args[0][2..];
        assert args[0][2..] != key;
        if StartsWith(args[1], KEY_PREFIX) {
          ParseFromKeepsKey(args[1..], acc.Put(args[0][2..], ""), key);
        } else {
          assert forall i :: 0 <= i < |args| - 2 ==> args[2..][i] == args[i + 2];
          ParseFromKeepsKey(args[2..], acc.Put(args[0][2..], args[1]), key);
        }
      } else {
        ParseFromKeepsKey(args[1..], acc.AddExtra(args[0]), key);
      }
    }
  }

  /** One step of ParseFrom, read at position `i` of `args`. */
  lemma ParseFromAt(args: seq<string>, i: nat, st: ArgState)
    requires i < |args|
    ensures ParseFrom(args[i..], st) ==
      if StartsWith(args[i], KEY_PREFIX) && i < |args| - 1 then
        if StartsWith(args[i + 1], KEY_PREFIX) then ParseFrom(args[i + 1..], st.Put(args[i][2..], ""))
        else ParseFrom(args[i + 2..], st.Put(args[i][2..], args[i + 1]))
      else ParseFrom(args[i + 1..], st.AddExtra(args[i]))
  {
  }

  /**
   * Tokens that toArray could have produced: pairs `--key value` with fresh keys (not in `seen`)
   * and values not starting with "--", then extras not starting with "--"; once an extra has been
   * seen (`extrasStarted`) no pair may follow.
   */
  predicate Canonical(args: seq<string>, seen: set<string>, extrasStarted: bool)
    decreases |args|
  {
    if args == [] then true
    else if StartsWith(args[0], KEY_PREFIX) then
      !extrasStarted && |args| > 1 && !StartsWith(args[1], KEY_PREFIX) && args[0][2..] !in seen
      && Canonical(args[2..], seen + {args[0][2..]}, false)
    else Canonical(args[1..], seen, true)
  }

  lemma {:induction false} FlattenSnoc(order: seq<string>, values: map<string, string>, key: string, value: string)
    requires key !in order
    ensures Flatten(order + [key], values[key := value]) == Flatten(order, values) + [KEY_PREFIX + key, value]
    decreases |order|
  {
    if order == [] {
      assert ([] + [key])[1..] == [];
    } else {
      assert (order + [key])[1..] == order[1..] + [key];
      FlattenSnoc(order[1..], values, key, value);
    }
  }

  lemma {:induction false} ParseFromCanonical(args: seq<string>, acc: ArgState)
    requires acc.Valid()
    requires Canonical(args, acc.values.Keys, acc.extras != [])
    ensures ParseFrom(args, acc).ToArray() == acc.ToArray() + args
    decreases |args|
  {
    if args != [] {
      var acc', n;
      if StartsWith(args[0], KEY_PREFIX) {
        acc' := CanonicalPairStep(args, acc);
        n := 2;
      } else {
        acc' := CanonicalExtraStep(args, acc);
        n := 1;
      }
      ParseFromCanonical(args[n..], acc');
      assert acc.ToArray() + args == acc.ToArray() + args[..n] + args[n..];
    }
  }

  /** A leading extra token is appended to the extras and printed back unchanged. */
  lemma CanonicalExtraStep(args: seq<string>, acc: ArgState) returns (acc': ArgState)
    requires acc.Valid()
    requires |args| > 0 && !StartsWith(args[0], KEY_PREFIX)
    requires Canonical(args, acc.values.Keys, acc.extras != [])
    ensures acc'.Valid() && ParseFrom(args, acc) == ParseFrom(args[1..], acc')
    ensures Canonical(args[1..], acc'.values.Keys, acc'.extras != [])
    ensures acc'.ToArray() == acc.ToArray() + args[..1]
  {
    acc' := acc.AddExtra(args[0]);
    assert args[..1] == [args[0]];
  }

  /** A leading canonical pair is stored as a new last key and printed back unchanged. */
  lemma CanonicalPairStep(args: seq<string>, acc: ArgState) returns (acc': ArgState)
    requires acc.Valid()
    requires |args| > 0 && StartsWith(args[0], KEY_PREFIX)
    requires Canonical(args, acc.values.Keys, acc.extras != [])
    ensures acc'.Valid() && ParseFrom(args, acc) == ParseFrom(args[2..], acc')
    ensures Canonical(args[2..], acc'.values.Keys, acc'.extras != [])
    ensures acc'.ToArray() == acc.ToArray() + args[..2]
  {
    var key, value := args[0][2..], args[1];
    assert KEY_PREFIX + key == args[0];
    acc' := acc.Put(key, value);
    PutValid(acc, key, value);
    assert acc.extras == [] && acc'.extras == [];
    assert acc'.values.Keys == acc.values.Keys + {key};
    FlattenSnoc(acc.order, acc.values, key, value);
    assert args[..2] == [args[0], value];
  }

  /** toArray gives back exactly the tokens parse read, when they are in toArray's own shape. */
  lemma {:induction false} ParseRoundTrip(args: seq<string>)
    requires Canonical(args, {}, false)
    ensures Parse(args).ToArray() == args
  {
    assert Empty.Valid() && Empty.values.Keys == {} && Empty.extras == [];
    ParseFromCanonical(args, Empty);
    assert Empty.ToArray() == [];
  }

  class Arguments {
    var order: seq<string>
    var values: map<string, string>
    var extraArgs: seq<string>

    function State(): ArgState
      reads this
    {
      ArgState(order, values, extraArgs)
    }

    ghost predicate Valid()
      reads this
    {
      State().Valid()
    }

    constructor ()
      ensures State() == Empty && Valid()
    {
      order, values, extraArgs := [], map[], [];
    }

    method Parse(args: seq<string>)
      requires Valid()
      modifies this
      ensures Valid()
      ensures State() == ParseFrom(args, old(State()))
    {
      var i := 0;
      while i < |args|
        invariant 0 <= i <= |args|
        invariant Valid()
        invariant ParseFrom(args[i..], State()) == ParseFrom(args, old(State()))
      {
        var arg := args[i];
        ParseFromAt(args, i, State());
        if StartsWith(arg, KEY_PREFIX) && i < |args| - 1 {
          var value := args[i + 1];
          if StartsWith(value, KEY_PREFIX) {
            value := "";
          } else {
            i := i + 1;
          }
          PutValid(State(), arg[2..], value);
          if arg[2..] !in values {
            order := order + [arg[2..]];
          }
          values := values[arg[2..] := value];
        } else {
          extraArgs := extraArgs + [arg];
        }
        i := i + 1;
      }
    }

    /** Arguments.remove: the value under `key`, if any, which is then no longer stored. */
    method Remove(key: string) returns (v: Option<string>)
      requires Valid()
      modifies this
      ensures Valid()
      ensures v == if key in old(values) then Some(old(values)[key]) else None
      ensures State() == old(State()).Remove(key)
    {
      RemoveValid(State(), key);
      if key in values {
        v := Some(values[key]);
        order := Without(order, key);
        values := values - {key};
      } else {
        v := None;
      }
    }

    function ToArray(): seq<string>
      reads this
    {
      State().ToArray()
    }

    function GetExtraArgs(): seq<string>
      reads this
    {
      extraArgs
    }
  }
}
