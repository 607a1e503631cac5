/** Dotted-path reads and writes into nested objects, and the loop that copies a request's fields
    into the canonical record as the mapping table says. The PIX and SPEI translators share both. */
module DottedPath {
  import opened Wrappers
  import opened Text

  datatype Value = Undefined | Null | Bool(b: bool) | Num(n: real) | Str(s: string) | Obj(fields: map<string, Value>)

  type Path = seq<string>

  /** A write that would have to look inside something that is not an object. */
  datatype PathError = NotAnObject

  const EMPTY := Obj(map[])

  function Field(v: Value, key: string): Value {
    if v.Obj? && key in v.fields then v.fields[key] else Undefined
  }

  function Get(v: Value, path: Path): Value
    decreases |path|
  {
    if path == [] then v else Get(Field(v, path[0]), path[1..])
  }

  /** Whether the last key of the path exists, possibly holding `undefined`. */
  predicate Present(v: Value, path: Path)
    decreases |path|
  {
    path == [] || (v.Obj? && path[0] in v.fields && Present(v.fields[path[0]], path[1..]))
  }

  /** Missing objects on the way are made. */
  function Child(v: Value, key: string): Value
    requires v.Obj?
  {
    if key in v.fields then v.fields[key] else EMPTY
  }

  function Put(v: Value, key: string, child: Value): Value
    requires v.Obj?
  {
    Obj(v.fields[key := child])
  }

  function Set(v: Value, path: Path, x: Value): Result<Value, PathError>
    requires path != []
    decreases |path|
  {
    if !v.Obj? then Err(NotAnObject)
    else if |path| == 1 then Ok(Put(v, path[0], x))
    else
      match Set(Child(v, path[0]), path[1..], x)
      case Ok(child) => Ok(Put(v, path[0], child))
      case Err(e) => Err(e)
  }

  // ---------- lens laws ----------

  predicate Comparable(p: Path, q: Path) {
    p <= q || q <= p
  }

  /** What is written can be read, and so can everything below it. */
  lemma {:induction false} GetAfterSet(v: Value, p: Path, x: Value, below: Path)
    requires p != []
    ensures Set(v, p, x).Ok? ==> Get(Set(v, p, x).result, p + below) == Get(x, below)
    decreases |p|
  {
    assert (p + below)[1..] == p[1..] + below;
    if |p| == 1 {
      assert p[1..] + below == below;
    } else if v.Obj? {
      GetAfterSet(Child(v, p[0]), p[1..], x, below);
    }
  }

  lemma {:induction false} GetOfEmpty(p: Path)
    requires p != []
    ensures Get(EMPTY, p) == Undefined && !Present(EMPTY, p)
  {
    GetOfUndefined(p[1..]);
  }

  lemma {:induction false} GetOfUndefined(p: Path)
    ensures Get(Undefined, p) == Undefined
  {
    if p != [] {
      GetOfUndefined(p[1..]);
    }
  }

  /** A path that is no prefix of the written one, nor extends it, reads as before. */
  lemma {:induction false} GetElsewhere(v: Value, p: Path, x: Value, q: Path)
    requires p != [] && !Comparable(p, q)
    ensures Set(v, p, x).Ok? ==> Get(Set(v, p, x).result, q) == Get(v, q)
    decreases |p|
  {
    assert q != [];
    if v.Obj? && p[0] == q[0] {
      assert !Comparable(p[1..], q[1..]) by {
        assert p == [p[0]] + p[1..] && q == [q[0]] + q[1..];
      }
      GetElsewhere(Child(v, p[0]), p[1..], x, q[1..]);
      if p[0] !in v.fields {
        GetOfEmpty(q[1..]);
        GetOfUndefined(q[1..]);
      }
    }
  }

  lemma PutCommutes(v: Value, k: string, a: Value, l: string, b: Value)
    requires v.Obj? && k != l
    ensures Put(Put(v, k, a), l, b) == Put(Put(v, l, b), k, a)
  {
    assert v.fields[k := a][l := b] == v.fields[l := b][k := a];
  }

  lemma PutTwice(v: Value, k: string, a: Value, b: Value)
    requires v.Obj?
    ensures Put(Put(v, k, a), k, b) == Put(v, k, b) && Child(Put(v, k, a), k) == a
  {
    assert v.fields[k := a][k := b] == v.fields[k := b];
  }

  /** The later of two writes to one path wins. */
  lemma {:induction false} SetTwice(v: Value, p: Path, x: Value, y: Value)
    requires p != [] && Set(v, p, x).Ok?
    ensures Set(Set(v, p, x).result, p, y) == Set(v, p, y)
    decreases |p|
  {
    if |p| == 1 {
      PutTwice(v, p[0], x, y);
    } else {
      var first := Set(Child(v, p[0]), p[1..], x).result;
      SetTwice(Child(v, p[0]), p[1..], x, y);
      PutTwice(v, p[0], first, first);
      var second := Set(first, p[1..], y);
      if second.Ok? { PutTwice(v, p[0], first, second.result); }
    }
  }

  /** Writing back what is there changes nothing exactly when it is there. */
  lemma {:induction false} SetOfGet(v: Value, p: Path)
    requires p != []
    ensures Set(v, p, Get(v, p)) == Ok(v) <==> Present(v, p)
    decreases |p|
  {
    if v.Obj? {
      if p[0] in v.fields {
        if |p| > 1 {
          SetOfGet(v.fields[p[0]], p[1..]);
        } else {
          assert Get(v, p) == v.fields[p[0]];
        }
        assert v.fields[p[0] := v.fields[p[0]]] == v.fields;
      } else if Set(v, p, Get(v, p)).Ok? {
        assert p[0] in Set(v, p, Get(v, p)).result.fields;
      }
    }
  }

  /** Writing one path and then another. */
  function SetBoth(v: Value, p: Path, x: Value, q: Path, y: Value): Result<Value, PathError>
    requires p != [] && q != []
  {
    match Set(v, p, x)
    case Ok(v1) => Set(v1, q, y)
    case Err(e) => Err(e)
  }

  /** A write under another key than the first path's. */
  lemma SetPastPut(v: Value, k: string, a: Value, q: Path, y: Value)
    requires v.Obj? && q != [] && q[0] != k
    ensures Set(v, q, y).Ok? <==> Set(Put(v, k, a), q, y).Ok?
    ensures Set(v, q, y).Ok? ==> Set(Put(v, k, a), q, y) == Ok(Put(Set(v, q, y).result, k, a))
  {
    assert Child(Put(v, k, a), q[0]) == Child(v, q[0]);
    if Set(v, q, y).Ok? {
      PutCommutes(v, k, a, q[0], Set(v, q, y).result.fields[q[0]]);
    }
  }

  lemma PutOfSet(v: Value, p: Path, x: Value)
    requires v.Obj? && p != []
    ensures Set(v, p, x).Ok? ==> Set(v, p, x).result == Put(v, p[0], Set(v, p, x).result.fields[p[0]])
  {
  }

  lemma CommuteApart(v: Value, p: Path, x: Value, q: Path, y: Value)
    requires v.Obj? && p != [] && q != [] && p[0] != q[0]
    ensures SetBoth(v, p, x, q, y) == SetBoth(v, q, y, p, x)
  {
    PutOfSet(v, p, x);
    PutOfSet(v, q, y);
    if Set(v, p, x).Ok? { SetPastPut(v, p[0], Set(v, p, x).result.fields[p[0]], q, y); }
    if Set(v, q, y).Ok? { SetPastPut(v, q[0], Set(v, q, y).result.fields[q[0]], p, x); }
    if Set(v, p, x).Ok? && Set(v, q, y).Ok? {
      PutCommutes(v, p[0], Set(v, p, x).result.fields[p[0]], q[0], Set(v, q, y).result.fields[q[0]]);
    } else {
      assert SetBoth(v, p, x, q, y).error.NotAnObject? && SetBoth(v, q, y, p, x).error.NotAnObject?;
    }
  }

  /** Writes to paths of which neither is a prefix of the other commute, errors included. */
  lemma {:induction false} SetsCommute(v: Value, p: Path, x: Value, q: Path, y: Value)
    requires p != [] && q != [] && !Comparable(p, q)
    ensures SetBoth(v, p, x, q, y) == SetBoth(v, q, y, p, x)
    decreases |p|
  {
    if v.Obj? {
      if p[0] == q[0] {
        assert !Comparable(p[1..], q[1..]) by {
          assert p == [p[0]] + p[1..] && q == [q[0]] + q[1..];
        }
        SetsCommute(Child(v, p[0]), p[1..], x, q[1..], y);
        BothUnderKey(v, p, x, q, y);
        BothUnderKey(v, q, y, p, x);
      } else {
        CommuteApart(v, p, x, q, y);
      }
    }
  }

  /** Two writes under one key are two writes into its child. */
  lemma BothUnderKey(v: Value, p: Path, x: Value, q: Path, y: Value)
    requires v.Obj? && |p| > 1 && |q| > 1 && p[0] == q[0]
    ensures SetBoth(v, p, x, q, y) ==
      match SetBoth(Child(v, p[0]), p[1..], x, q[1..], y)
      case Ok(child) => Ok(Put(v, p[0], child))
      case Err(e) => Err(e)
  {
    var first := Set(Child(v, p[0]), p[1..], x);
    if first.Ok? {
      PutTwice(v, p[0], first.result, first.result);
      var second := Set(first.result, q[1..], y);
      if second.Ok? { PutTwice(v, p[0], first.result, second.result); }
    }
  }

  /** A write fails exactly when some part of its path before the last key exists and is not an object. */
  lemma {:induction false} SetFails(v: Value, p: Path, x: Value)
    requires p != []
    ensures Set(v, p, x).Err? <==> Blocked(v, p)
    decreases |p|
  {
    if !v.Obj? {
      assert BlockedAt(v, p, 0);
    } else if |p| == 1 {
      assert forall k: nat :: !BlockedAt(v, p, k);
    } else {
      SetFails(Child(v, p[0]), p[1..], x);
      BlockedBelow(v, p);
    }
  }

  predicate BlockedAt(v: Value, p: Path, k: nat) {
    k < |p| && Present(v, p[..k]) && !Get(v, p[..k]).Obj?
  }

  ghost predicate Blocked(v: Value, p: Path) {
    exists k: nat :: BlockedAt(v, p, k)
  }

  lemma BlockedShift(v: Value, p: Path, k: nat)
    requires v.Obj? && k + 1 < |p| && p[0] in v.fields
    ensures BlockedAt(v.fields[p[0]], p[1..], k) <==> BlockedAt(v, p, k + 1)
  {
    assert p[..k + 1][1..] == p[1..][..k];
  }

  lemma BlockedBelow(v: Value, p: Path)
    requires v.Obj? && |p| > 1
    ensures Blocked(v, p) <==> Blocked(Child(v, p[0]), p[1..])
  {
    var child := Child(v, p[0]);
    if p[0] in v.fields {
      forall k: nat | k + 1 < |p| ensures BlockedAt(child, p[1..], k) <==> BlockedAt(v, p, k + 1) {
        BlockedShift(v, p, k);
      }
      if Blocked(v, p) {
        var k: nat :| BlockedAt(v, p, k);
        assert BlockedAt(child, p[1..], k - 1);
      }
      if Blocked(child, p[1..]) {
        var k: nat :| BlockedAt(child, p[1..], k);
        assert BlockedAt(v, p, k + 1);
      }
    } else {
      forall k: nat ensures !BlockedAt(v, p, k) && !BlockedAt(EMPTY, p[1..], k) {
        if 0 < k < |p| - 1 { GetOfEmpty(p[1..][..k]); }
      }
    }
  }

  // ---------- the mapping loop ----------

  datatype Mapping = Mapping(sourceField: string, transformation: string, validation: string, targetField: string)

  /** The table's transformations and validations; a validation may also throw. */
  datatype Rules = Rules(transform: (Value, string) -> Value, validate: (Value, string) -> Option<bool>)

  datatype TranslationError = PathBlocked | ValidationThrew

  datatype Write = Write(path: Path, value: Value)

  /** What a mapping writes: nothing if its source is missing or its validation fails. */
  function WriteOf(req: Value, m: Mapping, rules: Rules): Result<Option<Write>, TranslationError> {
    var source := Get(req, Split(m.sourceField, '.'));
    if source.Undefined? || source.Null? then Ok(None)
    else
      var x := rules.transform(source, m.transformation);
      if m.validation == "" then Ok(Some(Write(Split(m.targetField, '.'), x)))
      else
        match rules.validate(x, m.validation)
        case None => Err(ValidationThrew)
        case Some(valid) => Ok(if valid then Some(Write(Split(m.targetField, '.'), x)) else None)
  }

  function MapOne(raw: Value, req: Value, m: Mapping, rules: Rules): Result<Value, TranslationError> {
    match WriteOf(req, m, rules)
    case Err(e) => Err(e)
    case Ok(None) => Ok(raw)
    case Ok(Some(w)) =>
      if Set(raw, Split(m.targetField, '.'), w.value).Ok? then Ok(Set(raw, Split(m.targetField, '.'), w.value).result)
                        else Err(PathBlocked)
  }

  function MapAll(raw: Value, req: Value, mappings: seq<Mapping>, rules: Rules): Result<Value, TranslationError>
    decreases |mappings|
  {
    if mappings == [] then Ok(raw)
    else
      match MapOne(raw, req, mappings[0], rules)
      case Err(e) => Err(e)
      case Ok(raw1) => MapAll(raw1, req, mappings[1..], rules)
  }

  method ApplyMappings(defaults: Value, req: Value, mappings: seq<Mapping>, rules: Rules)
    returns (r: Result<Value, TranslationError>)
    ensures r == MapAll(defaults, req, mappings, rules)
    ensures r.Ok? ==> forall i :: 0 <= i < |mappings| && Passes(req, mappings[i], rules)
                                  && Untouched(req, mappings[i + 1..], rules, TargetOf(mappings[i])) ==>
      Get(r.result, TargetOf(mappings[i])) == Transformed(req, mappings[i], rules)
    ensures r.Ok? ==> forall q :: Untouched(req, mappings, rules, q) ==> Get(r.result, q) == Get(defaults, q)
    ensures r.Err? <==> exists i: nat :: i < |mappings| && Fails(defaults, req, mappings, rules, i)
  {
    EveryTargetHolds(defaults, req, mappings, rules);
    EveryOtherPathKeeps(defaults, req, mappings, rules);
    RunFails(defaults, req, mappings, rules);
    var raw := defaults;
    for i := 0 to |mappings|
      invariant MapAll(defaults, req, mappings, rules) == MapAll(raw, req, mappings[i..], rules)
    {
      var m := mappings[i];
      assert mappings[i..][1..] == mappings[i + 1..];
      var source := Get(req, Split(m.sourceField, '.'));
      if source.Undefined? || source.Null? {
        continue;
      }
      var x := rules.transform(source, m.transformation);
      if m.validation != "" {
        var valid := rules.validate(x, m.validation);
        if valid.None? {
          return Err(ValidationThrew);
        }
        if !valid.value {
          continue;
        }
      }
      var written := Set(raw, Split(m.targetField, '.'), x);
      if written.Err? {
        return Err(PathBlocked);
      }
      raw := written.result;
    }
    r := Ok(raw);
  }

  function SourceOf(req: Value, m: Mapping): Value {
    Get(req, Split(m.sourceField, '.'))
  }

  /** What a mapping would write. */
  function Transformed(req: Value, m: Mapping, rules: Rules): Value {
    rules.transform(SourceOf(req, m), m.transformation)
  }

  function TargetOf(m: Mapping): (p: Path)
    ensures p != []
  {
    Split(m.targetField, '.')
  }

  predicate HasSource(req: Value, m: Mapping) {
    SourceOf(req, m) != Undefined && SourceOf(req, m) != Null
  }

  /** The source is there, and its transformed value is valid or need not be. */
  predicate Passes(req: Value, m: Mapping, rules: Rules) {
    HasSource(req, m) && (m.validation == "" || rules.validate(Transformed(req, m, rules), m.validation) == Some(true))
  }

  /** The source is there, and the validation of its transformed value throws. */
  predicate Throws(req: Value, m: Mapping, rules: Rules) {
    HasSource(req, m) && m.validation != "" && rules.validate(Transformed(req, m, rules), m.validation) == None
  }

  /** A mapping writes exactly if it passes, and stops the run exactly if its validation throws or its
      target cannot be written. */
  lemma MapOneExactly(raw: Value, req: Value, m: Mapping, rules: Rules)
    ensures var r, x := MapOne(raw, req, m, rules), Transformed(req, m, rules);
      && (r == Err(ValidationThrew) <==> Throws(req, m, rules))
      && (r == Err(PathBlocked) <==> Passes(req, m, rules) && Blocked(raw, TargetOf(m)))
      && (Passes(req, m, rules) && r.Ok? ==> Set(raw, TargetOf(m), x) == Ok(r.result))
      && (!Passes(req, m, rules) && r.Ok? ==> r.result == raw)
  {
    SetFails(raw, TargetOf(m), Transformed(req, m, rules));
  }

  /** No mapping that passes has a target on the path, above it or below it. */
  predicate Untouched(req: Value, mappings: seq<Mapping>, rules: Rules, q: Path) {
    forall i :: 0 <= i < |mappings| && Passes(req, mappings[i], rules) ==> !Comparable(TargetOf(mappings[i]), q)
  }

  /** A path that no passing mapping touches keeps its default. */
  lemma {:induction false} UntouchedKeepsDefault(raw: Value, req: Value, mappings: seq<Mapping>, rules: Rules, q: Path)
    requires Untouched(req, mappings, rules, q)
    ensures var r := MapAll(raw, req, mappings, rules);
      r.Ok? ==> Get(r.result, q) == Get(raw, q)
    decreases |mappings|
  {
    if mappings != [] && MapOne(raw, req, mappings[0], rules).Ok? {
      MapOneExactly(raw, req, mappings[0], rules);
      if Passes(req, mappings[0], rules) {
        GetElsewhere(raw, TargetOf(mappings[0]), Transformed(req, mappings[0], rules), q);
      }
      assert Untouched(req, mappings[1..], rules, q) by {
        assert forall i :: 0 <= i < |mappings[1..]| ==> mappings[1..][i] == mappings[i + 1];
      }
      UntouchedKeepsDefault(MapOne(raw, req, mappings[0], rules).result, req, mappings[1..], rules, q);
    }
  }

  lemma {:induction false} MapAllSplits(raw: Value, req: Value, a: seq<Mapping>, b: seq<Mapping>, rules: Rules)
    ensures MapAll(raw, req, a + b, rules) ==
      match MapAll(raw, req, a, rules)
      case Ok(raw1) => MapAll(raw1, req, b, rules)
      case Err(e) => Err(e)
    decreases |a|
  {
    if a == [] {
      assert a + b == b;
    } else {
      assert (a + b)[1..] == a[1..] + b;
      if MapOne(raw, req, a[0], rules).Ok? {
        MapAllSplits(MapOne(raw, req, a[0], rules).result, req, a[1..], b, rules);
      }
    }
  }

  lemma MapAllAt(raw: Value, req: Value, mappings: seq<Mapping>, rules: Rules, i: nat)
    requires i < |mappings|
    ensures MapAll(raw, req, mappings, rules) ==
      match MapAll(raw, req, mappings[..i], rules)
      case Err(e) => Err(e)
      case Ok(raw1) =>
        match MapOne(raw1, req, mappings[i], rules)
        case Err(e) => Err(e)
        case Ok(raw2) => MapAll(raw2, req, mappings[i + 1..], rules)
  {
    var before, after := mappings[..i], mappings[i + 1..];
    assert mappings == before + ([mappings[i]] + after) && ([mappings[i]] + after)[1..] == after;
    MapAllSplits(raw, req, before, [mappings[i]] + after, rules);
  }

  /** The target of a mapping that passes holds the transformed value, unless a later mapping that
      passes touches it. */
  lemma AppliedTargetHolds(raw: Value, req: Value, mappings: seq<Mapping>, rules: Rules, i: nat)
    requires i < |mappings| && Passes(req, mappings[i], rules)
    requires Untouched(req, mappings[i + 1..], rules, TargetOf(mappings[i]))
    ensures var r := MapAll(raw, req, mappings, rules);
      r.Ok? ==> Get(r.result, TargetOf(mappings[i])) == Transformed(req, mappings[i], rules)
  {
    var path := TargetOf(mappings[i]);
    MapAllAt(raw, req, mappings, rules, i);
    if MapAll(raw, req, mappings, rules).Ok? {
      var raw1 := MapAll(raw, req, mappings[..i], rules).result;
      var raw2 := MapOne(raw1, req, mappings[i], rules).result;
      MapOneExactly(raw1, req, mappings[i], rules);
      GetAfterSet(raw1, path, Transformed(req, mappings[i], rules), []);
      assert path + [] == path;
      UntouchedKeepsDefault(raw2, req, mappings[i + 1..], rules, path);
    }
  }

  /** The run gets to mapping `i` and stops there: its validation throws, or its target cannot be written. */
  predicate StopsAt(raw: Value, req: Value, mappings: seq<Mapping>, rules: Rules, i: nat, e: TranslationError)
    requires i < |mappings|
  {
    var before := MapAll(raw, req, mappings[..i], rules);
    before.Ok? && match e
      case ValidationThrew => Throws(req, mappings[i], rules)
      case PathBlocked =>
        && Passes(req, mappings[i], rules)
        && Set(before.result, TargetOf(mappings[i]), Transformed(req, mappings[i], rules)).Err?
  }

  lemma StopsNow(raw: Value, req: Value, mappings: seq<Mapping>, rules: Rules, i: nat, e: TranslationError)
    requires i < |mappings| && StopsAt(raw, req, mappings, rules, i, e)
    ensures MapAll(raw, req, mappings, rules) == Err(e)
  {
    MapAllAt(raw, req, mappings, rules, i);
    var raw1 := MapAll(raw, req, mappings[..i], rules).result;
    MapOneExactly(raw1, req, mappings[i], rules);
    SetFails(raw1, TargetOf(mappings[i]), Transformed(req, mappings[i], rules));
  }

  lemma StopsFirst(raw: Value, req: Value, mappings: seq<Mapping>, rules: Rules)
    requires mappings != [] && MapOne(raw, req, mappings[0], rules).Err?
    ensures StopsAt(raw, req, mappings, rules, 0, MapOne(raw, req, mappings[0], rules).error)
  {
    assert mappings[..0] == [];
    MapOneExactly(raw, req, mappings[0], rules);
    SetFails(raw, TargetOf(mappings[0]), Transformed(req, mappings[0], rules));
  }

  lemma StopsLater(raw: Value, req: Value, mappings: seq<Mapping>, rules: Rules, j: nat, e: TranslationError)
    requires j + 1 < |mappings| && MapOne(raw, req, mappings[0], rules).Ok?
    requires StopsAt(MapOne(raw, req, mappings[0], rules).result, req, mappings[1..], rules, j, e)
    ensures StopsAt(raw, req, mappings, rules, j + 1, e)
  {
    assert mappings[..j + 1][1..] == mappings[1..][..j] && mappings[1..][j] == mappings[j + 1];
  }

  lemma {:induction false} SomewhereStops(raw: Value, req: Value, mappings: seq<Mapping>, rules: Rules) returns (i: nat)
    requires MapAll(raw, req, mappings, rules).Err?
    ensures i < |mappings| && StopsAt(raw, req, mappings, rules, i, MapAll(raw, req, mappings, rules).error)
    decreases |mappings|
  {
    var first := MapOne(raw, req, mappings[0], rules);
    if first.Err? {
      StopsFirst(raw, req, mappings, rules);
      i := 0;
    } else {
      var j := SomewhereStops(first.result, req, mappings[1..], rules);
      StopsLater(raw, req, mappings, rules, j, MapAll(raw, req, mappings, rules).error);
      i := j + 1;
    }
  }

  /** The run fails exactly when it stops at some mapping, and with the error of that mapping. */
  lemma RunFailsExactly(raw: Value, req: Value, mappings: seq<Mapping>, rules: Rules, e: TranslationError)
    ensures MapAll(raw, req, mappings, rules) == Err(e)
       <==> exists i: nat :: i < |mappings| && StopsAt(raw, req, mappings, rules, i, e)
  {
    if MapAll(raw, req, mappings, rules) == Err(e) {
      var i := SomewhereStops(raw, req, mappings, rules);
    }
    if i: nat :| i < |mappings| && StopsAt(raw, req, mappings, rules, i, e) {
      StopsNow(raw, req, mappings, rules, i, e);
    }
  }

  ghost predicate Fails(raw: Value, req: Value, mappings: seq<Mapping>, rules: Rules, i: nat)
    requires i < |mappings|
  {
    StopsAt(raw, req, mappings, rules, i, ValidationThrew) || StopsAt(raw, req, mappings, rules, i, PathBlocked)
  }

  lemma EveryTargetHolds(raw: Value, req: Value, mappings: seq<Mapping>, rules: Rules)
    ensures var r := MapAll(raw, req, mappings, rules);
      r.Ok? ==> forall i :: 0 <= i < |mappings| && Passes(req, mappings[i], rules)
                            && Untouched(req, mappings[i + 1..], rules, TargetOf(mappings[i])) ==>
        Get(r.result, TargetOf(mappings[i])) == Transformed(req, mappings[i], rules)
  {
    forall i | 0 <= i < |mappings| && Passes(req, mappings[i], rules)
               && Untouched(req, mappings[i + 1..], rules, TargetOf(mappings[i]))
      ensures MapAll(raw, req, mappings, rules).Ok? ==>
        Get(MapAll(raw, req, mappings, rules).result, TargetOf(mappings[i])) == Transformed(req, mappings[i], rules)
    {
      AppliedTargetHolds(raw, req, mappings, rules, i);
    }
  }

  lemma EveryOtherPathKeeps(raw: Value, req: Value, mappings: seq<Mapping>, rules: Rules)
    ensures var r := MapAll(raw, req, mappings, rules);
      r.Ok? ==> forall q :: Untouched(req, mappings, rules, q) ==> Get(r.result, q) == Get(raw, q)
  {
    forall q | Untouched(req, mappings, rules, q)
      ensures MapAll(raw, req, mappings, rules).Ok? ==> Get(MapAll(raw, req, mappings, rules).result, q) == Get(raw, q)
    {
      UntouchedKeepsDefault(raw, req, mappings, rules, q);
    }
  }

  lemma RunFails(raw: Value, req: Value, mappings: seq<Mapping>, rules: Rules)
    ensures MapAll(raw, req, mappings, rules).Err?
       <==> exists i: nat :: i < |mappings| && Fails(raw, req, mappings, rules, i)
  {
    if MapAll(raw, req, mappings, rules).Err? {
      var i := SomewhereStops(raw, req, mappings, rules);
      assert Fails(raw, req, mappings, rules, i);
    }
    if i: nat :| i < |mappings| && Fails(raw, req, mappings, rules, i) {
      FailsNow(raw, req, mappings, rules, i);
    }
  }

  lemma FailsNow(raw: Value, req: Value, mappings: seq<Mapping>, rules: Rules, i: nat)
    requires i < |mappings| && Fails(raw, req, mappings, rules, i)
    ensures MapAll(raw, req, mappings, rules).Err?
  {
    if StopsAt(raw, req, mappings, rules, i, ValidationThrew) {
      StopsNow(raw, req, mappings, rules, i, ValidationThrew);
    } else {
      StopsNow(raw, req, mappings, rules, i, PathBlocked);
    }
  }

  /** What becomes of one mapping's target over the whole run, when no other mapping that passes
      touches it: the transformed value if the source is there and valid, the default if the source
      is missing or invalid; and a validation that throws ends the run, unless it ended before. */
  lemma MappingDecides(raw: Value, req: Value, mappings: seq<Mapping>, rules: Rules, i: nat)
    requires i < |mappings|
    requires Untouched(req, mappings[..i], rules, TargetOf(mappings[i]))
    requires Untouched(req, mappings[i + 1..], rules, TargetOf(mappings[i]))
    ensures var m, r := mappings[i], MapAll(raw, req, mappings, rules);
            var source := Get(req, Split(m.sourceField, '.'));
            var x := rules.transform(source, m.transformation);
      if source == Undefined || source == Null then
        r.Ok? ==> Get(r.result, Split(m.targetField, '.')) == Get(raw, Split(m.targetField, '.'))
      else if m.validation == "" then r.Ok? ==> Get(r.result, Split(m.targetField, '.')) == x
      else match rules.validate(x, m.validation)
        case None => r.Err? && (MapAll(raw, req, mappings[..i], rules).Ok? ==> r == Err(ValidationThrew))
        case Some(valid) =>
          r.Ok? ==> Get(r.result, Split(m.targetField, '.')) == if valid then x else Get(raw, Split(m.targetField, '.'))
  {
    if Passes(req, mappings[i], rules) {
      AppliedTargetHolds(raw, req, mappings, rules, i);
    } else if Throws(req, mappings[i], rules) {
      MapAllAt(raw, req, mappings, rules, i);
      if MapAll(raw, req, mappings[..i], rules).Ok? { StopsNow(raw, req, mappings, rules, i, ValidationThrew); }
    } else {
      UntouchedAround(req, mappings, rules, i);
      UntouchedKeepsDefault(raw, req, mappings, rules, TargetOf(mappings[i]));
    }
  }

  lemma UntouchedAround(req: Value, mappings: seq<Mapping>, rules: Rules, i: nat)
    requires i < |mappings| && !Passes(req, mappings[i], rules)
    requires Untouched(req, mappings[..i], rules, TargetOf(mappings[i]))
    requires Untouched(req, mappings[i + 1..], rules, TargetOf(mappings[i]))
    ensures Untouched(req, mappings, rules, TargetOf(mappings[i]))
  {
    forall j | 0 <= j < |mappings| && Passes(req, mappings[j], rules)
      ensures !Comparable(TargetOf(mappings[j]), TargetOf(mappings[i]))
    {
      if j < i { assert mappings[..i][j] == mappings[j]; }
      else if j > i { assert mappings[i + 1..][j - i - 1] == mappings[j]; }
    }
  }

  predicate SameOutcome(a: Result<Value, TranslationError>, b: Result<Value, TranslationError>) {
    (a.Ok? <==> b.Ok?) && (a.Ok? ==> a == b)
  }

  lemma MapTwo(raw: Value, req: Value, m1: Mapping, m2: Mapping, rules: Rules)
    ensures MapAll(raw, req, [m1, m2], rules) ==
      match MapOne(raw, req, m1, rules)
      case Err(e) => Err(e)
      case Ok(raw1) => MapOne(raw1, req, m2, rules)
  {
    assert [m1, m2][1..] == [m2] && [m2][1..] == [];
    if MapOne(raw, req, m1, rules).Ok? {
      var raw1 := MapOne(raw, req, m1, rules).result;
      assert MapAll(raw1, req, [m2], rules) == MapOne(raw1, req, m2, rules);
    }
  }

  lemma SwapTwo(raw: Value, req: Value, m1: Mapping, m2: Mapping, rules: Rules)
    requires !Comparable(Split(m1.targetField, '.'), Split(m2.targetField, '.'))
    ensures SameOutcome(MapAll(raw, req, [m1, m2], rules), MapAll(raw, req, [m2, m1], rules))
  {
    MapTwo(raw, req, m1, m2, rules);
    MapTwo(raw, req, m2, m1, rules);
    var w1, w2 := WriteOf(req, m1, rules), WriteOf(req, m2, rules);
    if w1.Ok? && w1.result.Some? && w2.Ok? && w2.result.Some? {
      SetsCommute(raw, Split(m1.targetField, '.'), w1.result.value.value, Split(m2.targetField, '.'),
                  w2.result.value.value);
    }
  }

  /** The order in the mapping table does not matter for targets of which neither is a prefix of
      the other: swapping neighbours changes neither success nor the result. */
  lemma OrderIsIrrelevant(raw: Value, req: Value, before: seq<Mapping>, m1: Mapping, m2: Mapping, after: seq<Mapping>,
                          rules: Rules)
    requires !Comparable(Split(m1.targetField, '.'), Split(m2.targetField, '.'))
    ensures SameOutcome(MapAll(raw, req, before + ([m1, m2] + after), rules),
                        MapAll(raw, req, before + ([m2, m1] + after), rules))
  {
    MapAllSplits(raw, req, before, [m1, m2] + after, rules);
    MapAllSplits(raw, req, before, [m2, m1] + after, rules);
    if MapAll(raw, req, before, rules).Ok? {
      var raw1 := MapAll(raw, req, before, rules).result;
      MapAllSplits(raw1, req, [m1, m2], after, rules);
      MapAllSplits(raw1, req, [m2, m1], after, rules);
      SwapTwo(raw1, req, m1, m2, rules);
    }
  }

  // ---------- the fallback for the alias ----------

  predicate Truthy(v: Value) {
    match v
    case Undefined => false
    case Null => false
    case Bool(b) => b
    case Num(n) => n != 0.0
    case Str(s) => s != ""
    case Obj(_) => true
  }

  const ALIAS_VALUE: Path := ["alias", "value"]

  function WithAlias(raw: Value, creditorAlias: string, prefix: string): Result<Value, PathError> {
    if !Truthy(Get(raw, ["alias"])) || !Truthy(Get(raw, ALIAS_VALUE))
    then Set(raw, ALIAS_VALUE,
             Str(if StartsWith(creditorAlias, prefix) then creditorAlias[|prefix|..] else creditorAlias))
    else Ok(raw)
  }

  lemma GetTwo(v: Value, k: string, l: string)
    ensures Get(v, [k]) == Field(v, k) && Get(v, [k, l]) == Field(Field(v, k), l)
  {
    assert [k, l][1..] == [l] && [l][1..] == [] && [k][1..] == [];
    assert Get(Field(v, k), [l]) == Field(Field(v, k), l);
  }

  lemma SetTwo(v: Value, k: string, l: string, x: Value)
    requires v.Obj?
    ensures Set(v, [k, l], x).Err? <==> k in v.fields && !v.fields[k].Obj?
  {
    assert [k, l][1..] == [l];
  }

  /** After the fallback the alias has a value unless the creditor's alias is nothing but the rail's
      prefix; the fallback never replaces a value and writes nowhere else. It fails exactly when
      a mapping has put something other than an object at `alias`. */
  lemma AliasIsFilled(raw: Value, creditorAlias: string, prefix: string, q: Path)
    requires raw.Obj?
    ensures var r := WithAlias(raw, creditorAlias, prefix);
      && (r.Err? <==> "alias" in raw.fields && !raw.fields["alias"].Obj?)
      && (r.Ok? ==>
            && (Truthy(Get(r.result, ALIAS_VALUE)) <==>
                  Truthy(Get(raw, ALIAS_VALUE)) || (creditorAlias != prefix && creditorAlias != ""))
            && (Truthy(Get(raw, ALIAS_VALUE)) ==> r.result == raw)
            && (!Truthy(Get(raw, ALIAS_VALUE)) ==>
                  && Get(r.result, ALIAS_VALUE).Str?
                  && (if prefix <= creditorAlias then prefix + Get(r.result, ALIAS_VALUE).s == creditorAlias
                      else Get(r.result, ALIAS_VALUE).s == creditorAlias))
            && (!Comparable(ALIAS_VALUE, q) ==> Get(r.result, q) == Get(raw, q)))
  {
    var x := Str(if StartsWith(creditorAlias, prefix) then creditorAlias[|prefix|..] else creditorAlias);
    GetTwo(raw, "alias", "value");
    GetAfterSet(raw, ALIAS_VALUE, x, []);
    assert ALIAS_VALUE + [] == ALIAS_VALUE;
    assert Get(x, []) == x;
    if !Comparable(ALIAS_VALUE, q) { GetElsewhere(raw, ALIAS_VALUE, x, q); }
    SetTwo(raw, "alias", "value", x);
  }
}
