/**
 * Shared vocabulary of the model: the JavaScript values that flow through
 * option bags and documents, their truthiness, the two kinds of exception
 * the package and the runtime throw, the insertion-ordered de-duplication
 * that a JS `Set` performs, and the order in which `Object.keys` lists the
 * keys assigned to a plain object.
 */
module Common {

  datatype Option<+T> = None | Some(value: T)

  /** A JavaScript value as far as this package inspects it. Numbers are
      modelled as integers; host objects (drivers, collections, classes)
      are opaque handles identified by name. */
  datatype Value =
    | Undefined
    | Null
    | Bool(b: bool)
    | Num(n: int)
    | Str(s: string)
    | ObjectId(hex: string)
    | Obj(fields: map<string, Value>)
    | Handle(name: string)

  /** A user-supplied document transform (`(doc) => any`). */
  type Transform = Value -> Value

  /** The transforms of successive `map` calls applied to `x`, the first one
      first (`x => t(old(x))` at every call). */
  function ApplyAll(ts: seq<Transform>, x: Value): Value
    decreases |ts|
  {
    if ts == [] then x else ts[|ts| - 1](ApplyAll(ts[..|ts| - 1], x))
  }

  /** Mapping with `a` and then with `b` is mapping with `a + b`. */
  lemma {:induction false} ApplyAllAppend(a: seq<Transform>, b: seq<Transform>, x: Value)
    ensures ApplyAll(a + b, x) == ApplyAll(b, ApplyAll(a, x))
    decreases |b|
  {
    if b == [] {
      assert a + b == a;
    } else {
      ApplyAllAppend(a, b[..|b| - 1], x);
      assert (a + b)[..|a + b| - 1] == a + b[..|b| - 1];
    }
  }

  /** A document: an object's own enumerable properties. */
  type Doc = map<string, Value>

  /** An option bag such as `{ upsert: true, isInsecure: true }`. */
  type Options = map<string, Value>

  /** JavaScript truthiness. */
  predicate Truthy(v: Value)
  {
    match v
    case Undefined => false
    case Null => false
    case Bool(b) => b
    case Num(n) => n != 0
    case Str(s) => s != ""
    case _ => true
  }

  /** JavaScript `a || b`: the first operand when it is truthy, else the second. */
  function Or(a: Value, b: Value): (r: Value)
    ensures Truthy(a) ==> r == a
    ensures !Truthy(a) ==> r == b
    ensures Truthy(r) <==> Truthy(a) || Truthy(b)
  {
    if Truthy(a) then a else b
  }

  /** Optional-chained property read `o?.k` on a possibly undefined bag. */
  function Get(o: Option<Options>, k: string): (r: Value)
    ensures o.None? ==> r == Undefined
    ensures o.Some? && k !in o.value ==> r == Undefined
    ensures o.Some? && k in o.value ==> r == o.value[k]
  {
    match o
    case None => Undefined
    case Some(m) => if k in m then m[k] else Undefined
  }

  /** Object spread `{ ...o }` of a possibly undefined bag: undefined spreads to nothing. */
  function Spread(o: Option<Options>): Options
  {
    match o
    case None => map[]
    case Some(m) => m
  }

  /** The kinds of exception: a plain `Error(message)`, a
      `Meteor.Error(code, reason)`, and a `TypeError` raised by the runtime. */
  datatype Failure =
    | PlainError(message: string)
    | MeteorError(code: int, reason: string)
    | TypeError(message: string)

  /** The runtime's message for `Object.keys(null)` and `Object.keys(undefined)`. */
  const NULL_TO_OBJECT := "Cannot convert undefined or null to object"

  const FORBIDDEN: int := 403

  datatype Result<+T> = Ok(value: T) | Err(error: Failure)

  datatype Outcome = Done | Fail(error: Failure)

  /** No element occurs twice. */
  predicate NoDups<T(==)>(s: seq<T>)
  {
    forall i, j :: 0 <= i < j < |s| ==> s[i] != s[j]
  }

  /** The set of elements of a sequence. */
  function Elems<T(==)>(s: seq<T>): set<T>
  {
    set x | x in s
  }

  /**
   * What `Array.from(set)` gives after adding the elements of `s` to an empty
   * `Set` one at a time: every element once, in order of first occurrence.
   */
  function Dedup<T(==)>(s: seq<T>): (r: seq<T>)
    ensures Elems(r) == Elems(s)
    ensures NoDups(r)
    ensures |r| <= |s|
    decreases |s|
  {
    if s == [] then []
    else
      var p := Dedup(s[..|s| - 1]);
      var x := s[|s| - 1];
      assert s == s[..|s| - 1] + [x];
      assert Elems(s) == Elems(s[..|s| - 1]) + {x};
      assert Elems(p + [x]) == Elems(p) + {x};
      if x in p then p else p + [x]
  }

  /** Adding one more element to the `Set` appends it exactly when it is new. */
  lemma DedupSnoc<T>(s: seq<T>, x: T)
    ensures Dedup(s + [x]) == if x in s then Dedup(s) else Dedup(s) + [x]
  {
    assert (s + [x])[..|s + [x]| - 1] == s;
    assert x in Dedup(s) <==> x in Elems(Dedup(s));
  }

  /** A duplicate-free sequence passes through the `Set` unchanged. */
  lemma {:induction false} DedupOfNoDups<T>(s: seq<T>)
    requires NoDups(s)
    ensures Dedup(s) == s
  {
    if s != [] {
      var p := s[..|s| - 1];
      assert NoDups(p);
      DedupOfNoDups(p);
      assert s[|s| - 1] !in p;
      assert s == p + [s[|s| - 1]];
    }
  }

  /** Adding more names never reorders or drops the ones already present:
      the result for `a` is a prefix of the result for `a + b`. */
  lemma {:induction false} DedupPrefix<T>(a: seq<T>, b: seq<T>)
    ensures |Dedup(a)| <= |Dedup(a + b)|
    ensures Dedup(a + b)[..|Dedup(a)|] == Dedup(a)
    decreases |b|
  {
    if b == [] {
      assert a + b == a;
    } else {
      var b' := b[..|b| - 1];
      var x := b[|b| - 1];
      DedupPrefix(a, b');
      assert a + b == (a + b') + [x];
      DedupSnoc(a + b', x);
    }
  }

  /** The elements of `s` that satisfy `p`, in order. */
  function Filter<T(!new)>(p: T -> bool, s: seq<T>): (r: seq<T>)
    ensures forall x :: x in r <==> x in s && p(x)
    ensures |r| <= |s|
    decreases |s|
  {
    if s == [] then []
    else
      assert forall x :: x in s <==> x == s[0] || x in s[1..];
      (if p(s[0]) then [s[0]] else []) + Filter(p, s[1..])
  }

  lemma {:induction false} FilterAppend<T(!new)>(p: T -> bool, a: seq<T>, b: seq<T>)
    ensures Filter(p, a + b) == Filter(p, a) + Filter(p, b)
    decreases |a|
  {
    if a == [] {
      assert a + b == b;
    } else {
      assert (a + b)[0] == a[0];
      assert (a + b)[1..] == a[1..] + b;
      FilterAppend(p, a[1..], b);
    }
  }

  // ---------------------------------------------------------------------
  // The own keys of a plain object

  const PROTO := "__proto__"

  predicate IsDigit(c: char)
  {
    '0' <= c <= '9'
  }

  predicate AllDigits(k: string)
  {
    forall i :: 0 <= i < |k| ==> IsDigit(k[i])
  }

  function DigitValue(c: char): nat
  {
    if IsDigit(c) then c as int - '0' as int else 0
  }

  /** The number a string of decimal digits denotes. */
  function DecimalValue(k: string): nat
    decreases |k|
  {
    if k == [] then 0 else DecimalValue(k[..|k| - 1]) * 10 + DigitValue(k[|k| - 1])
  }

  /**
   * An array index: the canonical decimal form (no sign, no leading zero) of
   * an integer from 0 to 2^32 - 2. `Object.keys` lists such keys of a plain
   * object first, in ascending numeric order, before all other keys.
   */
  predicate IsArrayIndex(k: string)
  {
    && |k| > 0
    && AllDigits(k)
    && (k[0] != '0' || |k| == 1)
    && DecimalValue(k) < 0xFFFF_FFFF
  }

  /** A key `Object.keys` lists in assignment order: not an array index and
      not `__proto__`. */
  predicate IsNamedKey(k: string)
  {
    !IsArrayIndex(k) && k != PROTO
  }

  /** Array indices come first, in strictly ascending numeric order. */
  ghost predicate IndexKeysFirst(keys: seq<string>)
  {
    forall i, j :: 0 <= i < j < |keys| && IsArrayIndex(keys[j]) ==>
      IsArrayIndex(keys[i]) && DecimalValue(keys[i]) < DecimalValue(keys[j])
  }

  /** Places a new array index among the leading index keys by value. */
  function InsertIndex(keys: seq<string>, k: string): seq<string>
    decreases |keys|
  {
    if keys == [] || !IsArrayIndex(keys[0]) || DecimalValue(k) < DecimalValue(keys[0]) then [k] + keys
    else [keys[0]] + InsertIndex(keys[1..], k)
  }

  /**
   * The keys `Object.keys` lists after `obj[k] = <non-object>` on a plain
   * object whose keys were `keys`: a key already present stays where it is;
   * `__proto__` sets no own key (its setter ignores a non-object); a new
   * array index joins the index keys by value; any other new key goes last.
   */
  function AssignKey(keys: seq<string>, k: string): seq<string>
  {
    if k == PROTO || k in keys then keys
    else if IsArrayIndex(k) then InsertIndex(keys, k)
    else keys + [k]
  }

  /** `Object.keys(obj)` for an object literal `{}` to which each of `s` was
      assigned in turn. */
  function AssignedKeys(s: seq<string>): seq<string>
    decreases |s|
  {
    if s == [] then [] else AssignKey(AssignedKeys(s[..|s| - 1]), s[|s| - 1])
  }

  function Pow10(n: nat): nat
  {
    if n == 0 then 1 else 10 * Pow10(n - 1)
  }

  lemma {:induction false} Pow10Mono(a: nat, b: nat)
    requires a <= b
    ensures 1 <= Pow10(a) <= Pow10(b)
    decreases b
  {
    if b > 0 {
      if a < b {
        Pow10Mono(a, b - 1);
      } else {
        Pow10Mono(b - 1, b - 1);
      }
    }
  }

  lemma {:induction false} DecimalValueBounds(k: string)
    requires AllDigits(k)
    ensures DecimalValue(k) < Pow10(|k|)
    ensures |k| > 0 && k[0] != '0' ==> Pow10(|k| - 1) <= DecimalValue(k)
    decreases |k|
  {
    if k != [] {
      var p := k[..|k| - 1];
      assert AllDigits(p);
      DecimalValueBounds(p);
      if |p| > 0 {
        assert p[0] == k[0];
      }
    }
  }

  /** A shorter array index denotes a smaller number. */
  lemma ShorterIsSmaller(a: string, b: string)
    requires IsArrayIndex(a) && IsArrayIndex(b)
    ensures |a| < |b| ==> DecimalValue(a) < DecimalValue(b)
  {
    DecimalValueBounds(a);
    DecimalValueBounds(b);
    if |a| < |b| {
      Pow10Mono(|a|, |b| - 1);
    }
  }

  lemma {:induction false} DecimalSameLength(a: string, b: string)
    requires AllDigits(a) && AllDigits(b) && |a| == |b|
    requires DecimalValue(a) == DecimalValue(b)
    ensures a == b
    decreases |a|
  {
    if a != [] {
      var a', b' := a[..|a| - 1], b[..|b| - 1];
      assert AllDigits(a') && AllDigits(b');
      assert DigitValue(a[|a| - 1]) == DigitValue(b[|b| - 1]);
      DecimalSameLength(a', b');
      assert a == a' + [a[|a| - 1]] && b == b' + [b[|b| - 1]];
    }
  }

  /** Two array indices with the same value are the same key. */
  lemma DecimalInjective(a: string, b: string)
    requires IsArrayIndex(a) && IsArrayIndex(b)
    requires DecimalValue(a) == DecimalValue(b)
    ensures a == b
  {
    ShorterIsSmaller(a, b);
    ShorterIsSmaller(b, a);
    DecimalSameLength(a, b);
  }

  lemma {:induction false} InsertIndexElems(keys: seq<string>, k: string)
    ensures |InsertIndex(keys, k)| == |keys| + 1
    ensures forall x :: x in InsertIndex(keys, k) <==> x in keys || x == k
    decreases |keys|
  {
    if !(keys == [] || !IsArrayIndex(keys[0]) || DecimalValue(k) < DecimalValue(keys[0])) {
      InsertIndexElems(keys[1..], k);
      assert keys == [keys[0]] + keys[1..];
    }
  }

  lemma {:induction false} InsertIndexNoDups(keys: seq<string>, k: string)
    requires k !in keys && NoDups(keys)
    ensures NoDups(InsertIndex(keys, k))
    decreases |keys|
  {
    InsertIndexElems(keys, k);
    if keys == [] || !IsArrayIndex(keys[0]) || DecimalValue(k) < DecimalValue(keys[0]) {
      var r := [k] + keys;
      assert forall i :: 1 <= i < |r| ==> r[i] == keys[i - 1];
    } else {
      var rest := keys[1..];
      assert keys == [keys[0]] + rest;
      InsertIndexNoDups(rest, k);
      InsertIndexElems(rest, k);
      var r := [keys[0]] + InsertIndex(rest, k);
      assert forall i :: 1 <= i < |r| ==> r[i] == InsertIndex(rest, k)[i - 1];
      assert keys[0] !in InsertIndex(rest, k);
    }
  }

  lemma {:induction false} InsertIndexNamed(keys: seq<string>, k: string)
    requires IsArrayIndex(k)
    ensures Filter(IsNamedKey, InsertIndex(keys, k)) == Filter(IsNamedKey, keys)
    decreases |keys|
  {
    if keys == [] || !IsArrayIndex(keys[0]) || DecimalValue(k) < DecimalValue(keys[0]) {
      FilterAppend(IsNamedKey, [k], keys);
    } else {
      var rest := keys[1..];
      assert keys == [keys[0]] + rest;
      InsertIndexNamed(rest, k);
      FilterAppend(IsNamedKey, [keys[0]], rest);
      FilterAppend(IsNamedKey, [keys[0]], InsertIndex(rest, k));
    }
  }

  lemma {:induction false} InsertIndexOrdered(keys: seq<string>, k: string)
    requires IsArrayIndex(k) && k !in keys && IndexKeysFirst(keys)
    ensures IndexKeysFirst(InsertIndex(keys, k))
    decreases |keys|
  {
    if keys == [] || !IsArrayIndex(keys[0]) || DecimalValue(k) < DecimalValue(keys[0]) {
      var r := [k] + keys;
      forall i, j | 0 <= i < j < |r| && IsArrayIndex(r[j])
        ensures IsArrayIndex(r[i]) && DecimalValue(r[i]) < DecimalValue(r[j])
      {
        assert r[j] == keys[j - 1];
        if i > 0 {
          assert r[i] == keys[i - 1];
        } else if j > 1 {
          assert IsArrayIndex(keys[0]) && DecimalValue(keys[0]) < DecimalValue(keys[j - 1]);
        }
      }
    } else {
      var rest := keys[1..];
      assert IndexKeysFirst(rest) by {
        forall i, j | 0 <= i < j < |rest| && IsArrayIndex(rest[j])
          ensures IsArrayIndex(rest[i]) && DecimalValue(rest[i]) < DecimalValue(rest[j])
        {
          assert rest[i] == keys[i + 1] && rest[j] == keys[j + 1];
        }
      }
      InsertIndexOrdered(rest, k);
      InsertIndexElems(rest, k);
      var tail := InsertIndex(rest, k);
      if DecimalValue(keys[0]) == DecimalValue(k) {
        DecimalInjective(keys[0], k);
      }
      forall x | x in tail && IsArrayIndex(x)
        ensures DecimalValue(keys[0]) < DecimalValue(x)
      {
        if x != k {
          var m :| 0 <= m < |rest| && rest[m] == x;
          assert keys[m + 1] == x;
        }
      }
      var r := [keys[0]] + tail;
      forall i, j | 0 <= i < j < |r| && IsArrayIndex(r[j])
        ensures IsArrayIndex(r[i]) && DecimalValue(r[i]) < DecimalValue(r[j])
      {
        assert r[j] == tail[j - 1];
        if i > 0 {
          assert r[i] == tail[i - 1];
        }
      }
    }
  }

  lemma {:induction false} AssignedKeysElems(s: seq<string>)
    ensures NoDups(AssignedKeys(s))
    ensures forall x :: x in AssignedKeys(s) <==> x in s && x != PROTO
    decreases |s|
  {
    if s != [] {
      var p := s[..|s| - 1];
      var k := s[|s| - 1];
      var keys := AssignedKeys(p);
      AssignedKeysElems(p);
      assert s == p + [k];
      if !(k == PROTO || k in keys) {
        if IsArrayIndex(k) {
          InsertIndexElems(keys, k);
          InsertIndexNoDups(keys, k);
        } else {
          var r := keys + [k];
          assert forall i :: 0 <= i < |keys| ==> r[i] == keys[i];
        }
      }
    }
  }

  lemma {:induction false} AssignedKeysOrdered(s: seq<string>)
    ensures IndexKeysFirst(AssignedKeys(s))
    decreases |s|
  {
    if s != [] {
      var p := s[..|s| - 1];
      var k := s[|s| - 1];
      var keys := AssignedKeys(p);
      AssignedKeysOrdered(p);
      if !(k == PROTO || k in keys) {
        if IsArrayIndex(k) {
          InsertIndexOrdered(keys, k);
        } else {
          var r := keys + [k];
          forall i, j | 0 <= i < j < |r| && IsArrayIndex(r[j])
            ensures IsArrayIndex(r[i]) && DecimalValue(r[i]) < DecimalValue(r[j])
          {
            assert r[i] == keys[i] && r[j] == keys[j];
          }
        }
      }
    }
  }

  lemma AssignKeyNamed(keys: seq<string>, k: string)
    ensures Filter(IsNamedKey, AssignKey(keys, k)) ==
      if k in keys then Filter(IsNamedKey, keys) else Filter(IsNamedKey, keys) + Filter(IsNamedKey, [k])
  {
    if k !in keys {
      if k == PROTO || IsArrayIndex(k) {
        assert Filter(IsNamedKey, [k]) == [];
        if k != PROTO {
          InsertIndexNamed(keys, k);
        }
      } else {
        FilterAppend(IsNamedKey, keys, [k]);
      }
    }
  }

  lemma {:induction false} AssignedKeysNamed(s: seq<string>)
    ensures Filter(IsNamedKey, AssignedKeys(s)) == Filter(IsNamedKey, Dedup(s))
    decreases |s|
  {
    if s != [] {
      var p := s[..|s| - 1];
      AssignedKeysNamed(p);
      assert s == p + [s[|s| - 1]];
      AssignedKeysNamedStep(p, s[|s| - 1]);
    }
  }

  /** One more assignment keeps the named keys in first-assignment order. */
  lemma AssignedKeysNamedStep(p: seq<string>, k: string)
    requires Filter(IsNamedKey, AssignedKeys(p)) == Filter(IsNamedKey, Dedup(p))
    ensures Filter(IsNamedKey, AssignedKeys(p + [k])) == Filter(IsNamedKey, Dedup(p + [k]))
  {
    var keys := AssignedKeys(p);
    AssignedKeysSnoc(p, k);
    assert k in keys <==> k in p && k != PROTO by {
      AssignedKeysElems(p);
    }
    AssignKeyNamed(keys, k);
    DedupSnoc(p, k);
    if k !in p {
      FilterAppend(IsNamedKey, Dedup(p), [k]);
    } else if k == PROTO {
      assert Filter(IsNamedKey, [k]) == [];
    }
  }

  /** `o.b = 1; o["1"] = 2` lists `"1"` before `"b"`. */
  lemma IndexAssignedAfterNameListedFirst()
    ensures AssignedKeys(["b", "1"]) == ["1", "b"]
  {
    assert DecimalValue("1") == 1 by {
      assert "1"[..0] == "";
    }
    assert IsArrayIndex("1") && !IsArrayIndex("b");
    AssignedKeysSnoc([], "b");
    AssignedKeysSnoc(["b"], "1");
    assert InsertIndex(["b"], "1") == ["1", "b"];
  }

  lemma AssignedKeysSnoc(s: seq<string>, k: string)
    ensures AssignedKeys(s + [k]) == AssignKey(AssignedKeys(s), k)
  {
    assert (s + [k])[..|s|] == s;
  }

  /**
   * `Object.keys` after a run of assignments: every assigned key except
   * `__proto__`, once each; array indices first in ascending numeric order;
   * then the other keys in order of first assignment.
   */
  lemma AssignedKeysOrder(s: seq<string>)
    ensures var r := AssignedKeys(s);
      && NoDups(r)
      && (forall x :: x in r <==> x in s && x != PROTO)
      && IndexKeysFirst(r)
      && Filter(IsNamedKey, r) == Filter(IsNamedKey, Dedup(s))
  {
    AssignedKeysElems(s);
    AssignedKeysOrdered(s);
    AssignedKeysNamed(s);
  }
}
