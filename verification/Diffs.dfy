/** The difference of two nested dictionaries, and patching one with it. */
module Diffs {
  import opened Wrappers

  /** A JSON value: a dictionary, or anything else by its text. */
  datatype Value = Leaf(json: string) | Dict(fields: map<string, Value>)

  const NULL: Value := Leaf("null")

  datatype UpdateError = NotADictionary

  // The difference

  /** k's entry in the difference, if it has one. */
  function DiffAt(a: Value, b: Value, k: string): Option<Value>
    requires a.Dict? && b.Dict?
    decreases a, 0
  {
    if k in a.fields then
      if k !in b.fields then Some(NULL)
      else
        var x, y := a.fields[k], b.fields[k];
        if x.Dict? && y.Dict? then
          var sub := Diff(x, y);
          if sub == map[] then None else Some(Dict(sub))
        else if x != y then Some(y)
        else None
    else if k in b.fields then Some(b.fields[k])
    else None
  }

  /** deep_diff */
  function Diff(a: Value, b: Value): map<string, Value>
    requires a.Dict? && b.Dict?
    decreases a, 1
  {
    map k | k in a.fields.Keys + b.fields.Keys && DiffAt(a, b, k).Some? :: DiffAt(a, b, k).value
  }

  lemma {:induction false} DiffHas(a: Value, b: Value, k: string)
    requires a.Dict? && b.Dict?
    ensures k in Diff(a, b) <==> DiffAt(a, b, k).Some?
    ensures k in Diff(a, b) ==> Diff(a, b)[k] == DiffAt(a, b, k).value
  {
  }

  /** What deep_diff's first loop does with a key that both have. */
  method SharedEntry(a: Value, b: Value, k: string) returns (entry: Option<Value>)
    requires a.Dict? && b.Dict? && k in a.fields && k in b.fields
    ensures entry == DiffAt(a, b, k)
    decreases a, 0
  {
    var x, y := a.fields[k], b.fields[k];
    if x.Dict? && y.Dict? {
      var sub := DeepDiff(x, y);
      entry := if sub == map[] then None else Some(Dict(sub));
    } else {
      entry := if x != y then Some(y) else None;
    }
  }

  /** diff holds the entries of exactly these keys. */
  ghost predicate DiffOn(a: Value, b: Value, keys: set<string>, diff: map<string, Value>)
    requires a.Dict? && b.Dict?
  {
    && (forall k :: k in diff <==> k in keys && DiffAt(a, b, k).Some?)
    && forall k :: k in diff ==> diff[k] == DiffAt(a, b, k).value
  }

  function WithEntry(diff: map<string, Value>, k: string, entry: Option<Value>): map<string, Value> {
    match entry
    case Some(v) => diff[k := v]
    case None => diff
  }

  lemma {:induction false} DiffOnNext(a: Value, b: Value, keys: set<string>, diff: map<string, Value>, k: string)
    requires a.Dict? && b.Dict? && DiffOn(a, b, keys, diff)
    ensures DiffOn(a, b, keys + {k}, WithEntry(diff, k, DiffAt(a, b, k)))
  {
  }

  /** deep_diff, which goes through the keys of the one and then of the other */
  method DeepDiff(a: Value, b: Value) returns (diff: map<string, Value>)
    requires a.Dict? && b.Dict?
    ensures diff == Diff(a, b)
    decreases a, 1
  {
    diff := map[];
    var keys := a.fields.Keys;
    while keys != {}
      invariant keys <= a.fields.Keys && DiffOn(a, b, a.fields.Keys - keys, diff)
      decreases |keys|
    {
      var k :| k in keys;
      DiffOnNext(a, b, a.fields.Keys - keys, diff, k);
      OneFewer(a.fields.Keys, keys, k);
      if k !in b.fields {
        diff := diff[k := NULL];
      } else {
        var entry := SharedEntry(a, b, k);
        if entry.Some? {
          diff := diff[k := entry.value];
        }
      }
      keys := keys - {k};
    }
    assert a.fields.Keys - {} == a.fields.Keys;
    diff := AddNew(a, b, diff);
    assert diff == Diff(a, b);
  }

  lemma OneFewer(a: set<string>, keys: set<string>, k: string)
    requires keys <= a && k in keys
    ensures a - (keys - {k}) == (a - keys) + {k}
  {
  }

  lemma OneLess(a: set<string>, b: set<string>, keys: set<string>, k: string)
    requires keys <= b && k in keys
    ensures a + (b - (keys - {k})) == a + (b - keys) + {k}
    ensures k in a ==> a + (b - (keys - {k})) == a + (b - keys)
  {
  }

  /** deep_diff's second loop */
  method AddNew(a: Value, b: Value, shared: map<string, Value>) returns (diff: map<string, Value>)
    requires a.Dict? && b.Dict? && DiffOn(a, b, a.fields.Keys, shared)
    ensures DiffOn(a, b, a.fields.Keys + b.fields.Keys, diff)
  {
    diff := shared;
    var keys := b.fields.Keys;
    while keys != {}
      invariant keys <= b.fields.Keys && DiffOn(a, b, a.fields.Keys + (b.fields.Keys - keys), diff)
      decreases |keys|
    {
      var k :| k in keys;
      DiffOnNext(a, b, a.fields.Keys + (b.fields.Keys - keys), diff, k);
      if k !in a.fields {
        diff := diff[k := b.fields[k]];
      }
      OneLess(a.fields.Keys, b.fields.Keys, keys, k);
      keys := keys - {k};
    }
    assert b.fields.Keys - {} == b.fields.Keys;
  }

  // The update

  function UpdateAt(a: Value, d: Value, k: string): Result<Value, UpdateError>
    requires a.Dict? && d.Dict? && k in d.fields
    decreases d, 0
  {
    if d.fields[k].Dict? then Update(if k in a.fields then a.fields[k] else Dict(map[]), d.fields[k])
    else Success(d.fields[k])
  }

  /** deep_update: what is not a dictionary can take no keys. */
  function Update(a: Value, d: Value): Result<Value, UpdateError>
    requires d.Dict?
    decreases d, 1
  {
    if !a.Dict? then (if d.fields == map[] then Success(a) else Failure(NotADictionary))
    else if forall k :: k in d.fields ==> UpdateAt(a, d, k).Success? then
      Success(Dict(map k | k in a.fields.Keys + d.fields.Keys ::
        if k in d.fields then UpdateAt(a, d, k).value else a.fields[k]))
    else Failure(NotADictionary)
  }

  /** The value deep_update gives to one key. */
  method UpdatedValue(a: Value, d: Value, k: string) returns (r: Result<Value, UpdateError>)
    requires a.Dict? && d.Dict? && k in d.fields
    ensures r == UpdateAt(a, d, k)
    decreases d, 0
  {
    var v := d.fields[k];
    if v.Dict? {
      r := DeepUpdate(if k in a.fields then a.fields[k] else Dict(map[]), v);
    } else {
      r := Success(v);
    }
  }

  /** The fields once these keys are updated. */
  ghost predicate UpdatedOn(a: Value, d: Value, keys: set<string>, fields: map<string, Value>)
    requires a.Dict? && d.Dict? && keys <= d.fields.Keys
  {
    && (forall k :: k in fields <==> k in a.fields || k in keys)
    && (forall k :: k in keys ==> UpdateAt(a, d, k) == Success(fields[k]))
    && forall k :: k in fields && k !in keys ==> fields[k] == a.fields[k]
  }

  lemma {:induction false} UpdatedOnNext(a: Value, d: Value, keys: set<string>, fields: map<string, Value>,
                                         k: string, v: Value)
    requires a.Dict? && d.Dict? && keys <= d.fields.Keys && UpdatedOn(a, d, keys, fields)
    requires k in d.fields && k !in keys && UpdateAt(a, d, k) == Success(v)
    ensures UpdatedOn(a, d, keys + {k}, fields[k := v])
  {
  }

  ghost predicate SomeFails(a: Value, d: Value)
    requires a.Dict? && d.Dict?
  {
    exists k :: k in d.fields && UpdateAt(a, d, k).Failure?
  }

  lemma {:induction false} OneFails(a: Value, d: Value)
    requires a.Dict? && d.Dict? && SomeFails(a, d)
    ensures Update(a, d) == Failure(NotADictionary)
  {
  }

  lemma {:induction false} UpdatedAll(a: Value, d: Value, fields: map<string, Value>)
    requires a.Dict? && d.Dict? && UpdatedOn(a, d, d.fields.Keys, fields)
    ensures Update(a, d) == Success(Dict(fields))
  {
    assert forall k :: k in d.fields ==> UpdateAt(a, d, k).Success?;
    assert Update(a, d).value.fields == fields;
  }

  /** deep_update, which merges the second dictionary into the first key by key */
  method DeepUpdate(a: Value, d: Value) returns (r: Result<Value, UpdateError>)
    requires d.Dict?
    ensures r == Update(a, d)
    decreases d, 2
  {
    if a.Dict? {
      var ok, fields := UpdateFields(a, d);
      if ok {
        UpdatedAll(a, d, fields);
        r := Success(Dict(fields));
      } else {
        OneFails(a, d);
        r := Failure(NotADictionary);
      }
    } else if d.fields == map[] {
      r := Success(a);
    } else {
      r := Failure(NotADictionary);
    }
  }

  method UpdateFields(a: Value, d: Value) returns (ok: bool, fields: map<string, Value>)
    requires a.Dict? && d.Dict?
    ensures if ok then UpdatedOn(a, d, d.fields.Keys, fields) else SomeFails(a, d)
    decreases d, 1
  {
    fields := a.fields;
    var keys := d.fields.Keys;
    ghost var done: set<string> := {};
    while keys != {}
      invariant keys <= d.fields.Keys && done <= d.fields.Keys
      invariant forall k :: k in d.fields ==> (k in done <==> k !in keys)
      invariant UpdatedOn(a, d, done, fields)
      decreases |keys|
    {
      var k :| k in keys;
      var v := UpdatedValue(a, d, k);
      if v.Failure? {
        return false, fields;
      }
      UpdatedOnNext(a, d, done, fields, k, v.value);
      fields := fields[k := v.value];
      done := done + {k};
      keys := keys - {k};
    }
    assert done == d.fields.Keys;
    ok := true;
  }

  // Nothing to do

  /** The difference is empty exactly when there is none. */
  lemma {:induction false} DiffEmpty(a: Value, b: Value)
    requires a.Dict? && b.Dict?
    ensures Diff(a, b) == map[] <==> a == b
    decreases a
  {
    forall k | k in a.fields && k in b.fields ensures DiffAt(a, b, k).None? <==> a.fields[k] == b.fields[k] {
      if a.fields[k].Dict? && b.fields[k].Dict? {
        DiffEmpty(a.fields[k], b.fields[k]);
      }
    }
    if Diff(a, b) == map[] {
      forall k ensures k in a.fields <==> k in b.fields {
        DiffHas(a, b, k);
      }
      forall k | k in a.fields ensures a.fields[k] == b.fields[k] {
        DiffHas(a, b, k);
      }
      assert a.fields == b.fields;
    }
    if a == b {
      forall k ensures k !in Diff(a, b) {
        DiffHas(a, b, k);
      }
    }
  }

  /** Updating an empty dictionary copies the other one. */
  lemma {:induction false} UpdateEmpty(d: Value)
    requires d.Dict?
    ensures Update(Dict(map[]), d) == Success(d)
    decreases d
  {
    forall k | k in d.fields ensures UpdateAt(Dict(map[]), d, k) == Success(d.fields[k]) {
      if d.fields[k].Dict? {
        UpdateEmpty(d.fields[k]);
      }
    }
    assert Update(Dict(map[]), d).value.fields == d.fields;
  }

  // The round trip

  /** No key goes from something that is not a dictionary to a dictionary, at any depth. */
  ghost predicate Compatible(a: Value, b: Value)
    requires a.Dict? && b.Dict?
    decreases b
  {
    forall k :: k in a.fields && k in b.fields && b.fields[k].Dict? ==>
      a.fields[k].Dict? && Compatible(a.fields[k], b.fields[k])
  }

  /** c is b on every path of b, and null at the keys of a that b dropped. */
  ghost predicate Restored(a: Value, b: Value, c: Value)
    requires a.Dict? && b.Dict?
    decreases b
  {
    && c.Dict? && c.fields.Keys == a.fields.Keys + b.fields.Keys
    && forall k :: k in c.fields ==> RestoredAt(a, b, c, k)
  }

  ghost predicate RestoredAt(a: Value, b: Value, c: Value, k: string)
    requires a.Dict? && b.Dict? && c.Dict? && k in c.fields
    decreases b, 0
  {
    if k !in b.fields then c.fields[k] == NULL
    else if k in a.fields && a.fields[k].Dict? && b.fields[k].Dict? then
      Restored(a.fields[k], b.fields[k], c.fields[k])
    else c.fields[k] == b.fields[k]
  }

  lemma {:induction false} SelfRestored(a: Value)
    requires a.Dict?
    ensures Restored(a, a, a) && Compatible(a, a)
    decreases a
  {
    forall k | k in a.fields ensures RestoredAt(a, a, a, k) {
      if a.fields[k].Dict? {
        SelfRestored(a.fields[k]);
      }
    }
    forall k | k in a.fields && a.fields[k].Dict? ensures Compatible(a.fields[k], a.fields[k]) {
      SelfRestored(a.fields[k]);
    }
  }

  /** a patched with its difference to b */
  function Patched(a: Value, b: Value): Result<Value, UpdateError>
    requires a.Dict? && b.Dict?
  {
    Update(a, Dict(Diff(a, b)))
  }

  /** What patching makes of one key. */
  function PatchedAt(a: Value, b: Value, k: string): Result<Value, UpdateError>
    requires a.Dict? && b.Dict? && (k in a.fields || k in b.fields)
  {
    if k in Diff(a, b) then UpdateAt(a, Dict(Diff(a, b)), k)
    else if k in a.fields then Success(a.fields[k])
    else Failure(NotADictionary)
  }

  lemma PatchedByKey(a: Value, b: Value)
    requires a.Dict? && b.Dict?
    ensures Patched(a, b).Success? <==>
      forall k :: k in a.fields || k in b.fields ==> PatchedAt(a, b, k).Success?
    ensures Patched(a, b).Success? ==>
      var c := Patched(a, b).value;
      c.Dict? && c.fields.Keys == a.fields.Keys + b.fields.Keys &&
      forall k :: k in c.fields ==> PatchedAt(a, b, k) == Success(c.fields[k])
  {
    forall k ensures k in Diff(a, b) ==> k in a.fields || k in b.fields {
      DiffHas(a, b, k);
    }
    forall k ensures k in b.fields && k !in a.fields ==> k in Diff(a, b) {
      DiffHas(a, b, k);
    }
  }

  /** Only a key that would turn into a dictionary is not patched right. */
  predicate CompatibleShape(a: Value, b: Value, k: string)
    requires a.Dict? && b.Dict?
  {
    k in a.fields && k in b.fields && b.fields[k].Dict? ==> a.fields[k].Dict?
  }

  ghost predicate PatchedRight(a: Value, b: Value)
    requires a.Dict? && b.Dict?
  {
    Patched(a, b).Success? && Restored(a, b, Patched(a, b).value)
  }

  /** One key, given that the dictionaries below it are patched right. */
  lemma {:induction false} KeyIsRestored(a: Value, b: Value, k: string)
    requires a.Dict? && b.Dict? && (k in a.fields || k in b.fields) && CompatibleShape(a, b, k)
    requires k in a.fields && k in b.fields && a.fields[k].Dict? && b.fields[k].Dict? ==>
      PatchedRight(a.fields[k], b.fields[k])
    ensures PatchedAt(a, b, k).Success?
    ensures var c := Dict(map[k := PatchedAt(a, b, k).value]); RestoredAt(a, b, c, k)
  {
    DiffHas(a, b, k);
    if k in a.fields && k in b.fields && a.fields[k].Dict? && b.fields[k].Dict? {
      var x, y := a.fields[k], b.fields[k];
      if Diff(x, y) == map[] {
        DiffEmpty(x, y);
        SelfRestored(x);
      }
    } else if k !in a.fields && b.fields[k].Dict? {
      UpdateEmpty(b.fields[k]);
    }
  }

  /** A leaf that should turn into a dictionary stays a leaf, or the update fails. */
  lemma LeafIsNotRestored(a: Value, b: Value, k: string)
    requires a.Dict? && b.Dict? && k in a.fields && k in b.fields && b.fields[k].Dict? && !a.fields[k].Dict?
    ensures PatchedAt(a, b, k).Success? ==> PatchedAt(a, b, k).value != b.fields[k]
  {
    DiffHas(a, b, k);
    assert PatchedAt(a, b, k) == Update(a.fields[k], b.fields[k]);
  }

  lemma PatchedBelow(a: Value, b: Value, k: string)
    requires a.Dict? && b.Dict? && k in a.fields && k in b.fields && b.fields[k].Dict? && a.fields[k].Dict?
    requires Diff(a.fields[k], b.fields[k]) != map[]
    ensures PatchedAt(a, b, k) == Patched(a.fields[k], b.fields[k])
  {
    DiffHas(a, b, k);
  }

  lemma {:induction false} KeyIsNotRestored(a: Value, b: Value, k: string)
    requires a.Dict? && b.Dict? && k in a.fields && k in b.fields && b.fields[k].Dict?
    requires a.fields[k].Dict? ==> !PatchedRight(a.fields[k], b.fields[k]) && !Compatible(a.fields[k], b.fields[k])
    ensures PatchedAt(a, b, k).Success? ==> !RestoredAt(a, b, Dict(map[k := PatchedAt(a, b, k).value]), k)
  {
    if !a.fields[k].Dict? {
      LeafIsNotRestored(a, b, k);
    } else if Diff(a.fields[k], b.fields[k]) == map[] {
      DiffEmpty(a.fields[k], b.fields[k]);
      SelfRestored(a.fields[k]);
    } else {
      PatchedBelow(a, b, k);
    }
  }

  lemma {:induction false} SameAtKey(a: Value, b: Value, c: Value, d: Value, k: string)
    requires a.Dict? && b.Dict? && c.Dict? && d.Dict? && k in c.fields && k in d.fields && c.fields[k] == d.fields[k]
    ensures RestoredAt(a, b, c, k) == RestoredAt(a, b, d, k)
  {
  }

  /** Patching a with its difference to b restores b exactly when no key turns into a dictionary. */
  lemma {:induction false} PatchRestores(a: Value, b: Value)
    requires a.Dict? && b.Dict?
    ensures PatchedRight(a, b) <==> Compatible(a, b)
    decreases b
  {
    PatchedByKey(a, b);
    if Compatible(a, b) {
      forall k | k in a.fields || k in b.fields
        ensures PatchedAt(a, b, k).Success? && RestoredAt(a, b, Dict(map[k := PatchedAt(a, b, k).value]), k)
      {
        if k in a.fields && k in b.fields && a.fields[k].Dict? && b.fields[k].Dict? {
          PatchRestores(a.fields[k], b.fields[k]);
        }
        KeyIsRestored(a, b, k);
      }
      var c := Patched(a, b).value;
      forall k | k in c.fields ensures RestoredAt(a, b, c, k) {
        SameAtKey(a, b, c, Dict(map[k := PatchedAt(a, b, k).value]), k);
      }
    } else if Patched(a, b).Success? {
      var k :| k in a.fields && k in b.fields && b.fields[k].Dict? &&
        !(a.fields[k].Dict? && Compatible(a.fields[k], b.fields[k]));
      if a.fields[k].Dict? {
        PatchRestores(a.fields[k], b.fields[k]);
      }
      KeyIsNotRestored(a, b, k);
      var c := Patched(a, b).value;
      SameAtKey(a, b, c, Dict(map[k := PatchedAt(a, b, k).value]), k);
    }
  }
}
