/**
 * Legacy `extraParams` keys and the first-class engine fields they shadow: the validation and the config
 * lift of src/core/extra-params.ts. Key normalisation is a parameter: nothing here depends on how it folds
 * case. Values are trees; a YAML alias that makes one object appear twice, or inside itself, is not modelled.
 */
module ExtraParams {
  import opened Options
  import opened JsonValues
  import opened Sinks

  type Normalizer = string -> string

  const PROTECTED: set<string> := {
    "model", "messages", "temperature", "maxtokens", "responseformat", "stream", "streamoptions",
    "enablethinking", "reasoningeffort", "chattemplatekwargs" }

  const CREDENTIALS: set<string> := {
    "authorization", "headers", "apikey", "token", "password", "secret", "cookie", "setcookie" }

  /** The first-class field a liftable key moves to. `model` is protected but never lifted. */
  function FieldFor(normalized: string): Option<string> {
    if normalized == "temperature" then Some("temperature")
    else if normalized == "maxtokens" then Some("maxTokens")
    else if normalized == "enablethinking" then Some("enableThinking")
    else if normalized == "reasoningeffort" then Some("reasoningEffort")
    else None
  }

  predicate Liftable(norm: Normalizer, key: string) {
    FieldFor(norm(key)).Some?
  }

  // ------------------------------------------------------------------- records

  /** `record[key] = value` */
  function Set(fields: seq<Field>, key: string, value: Json): seq<Field> {
    var i := Find(fields, key);
    if i < |fields| then fields[i := Field(key, value)] else fields + [Field(key, value)]
  }

  /** `delete record[key]` */
  function Remove(fields: seq<Field>, key: string): seq<Field> {
    if fields == [] then []
    else (if fields[0].key == key then [] else [fields[0]]) + Remove(fields[1..], key)
  }

  /** An object has each of its own keys once. */
  predicate OwnKeys(fields: seq<Field>) {
    forall i, k | 0 <= i < k < |fields| :: fields[i].key != fields[k].key
  }

  lemma {:induction false} FindIs(fields: seq<Field>, key: string, i: nat)
    requires i <= |fields| && (forall j | 0 <= j < i :: fields[j].key != key)
    requires i < |fields| ==> fields[i].key == key
    ensures Find(fields, key) == i
  {
  }

  lemma GetSet(fields: seq<Field>, key: string, value: Json, other: string)
    ensures Get(Set(fields, key, value), other) == if other == key then Some(value) else Get(fields, other)
  {
    var i := Find(fields, key);
    var after := Set(fields, key, value);
    if other == key {
      FindIs(after, key, i);
    } else {
      var j := Find(fields, other);
      if j == |fields| && i == |fields| {
        FindIs(after, other, |after|);
      } else {
        FindIs(after, other, j);
      }
    }
  }

  lemma GetHead(fields: seq<Field>, key: string)
    ensures fields == [] ==> Get(fields, key) == None
    ensures fields != [] ==>
              Get(fields, key) == if fields[0].key == key then Some(fields[0].value) else Get(fields[1..], key)
  {
  }

  lemma {:induction false} GetRemove(fields: seq<Field>, key: string, other: string)
    ensures Get(Remove(fields, key), other) == if other == key then None else Get(fields, other)
  {
    hide Get;
    GetHead(fields, other);
    if fields == [] {
    } else {
      var rest := Remove(fields[1..], key);
      GetRemove(fields[1..], key, other);
      if fields[0].key != key {
        assert ([fields[0]] + rest)[1..] == rest;
        GetHead([fields[0]] + rest, other);
      } else {
        assert [] + rest == rest;
      }
    }
  }

  /** Among distinct keys a removal takes out one entry. */
  lemma {:induction false} RemoveMiddle(before: seq<Field>, x: Field, after: seq<Field>)
    requires OwnKeys(before + [x] + after)
    ensures Remove(before + [x] + after, x.key) == before + after
    decreases |before| + |after|
  {
    var all := before + [x] + after;
    if before != [] {
      assert all[0] == before[0] && all[1..] == before[1..] + [x] + after;
      assert all[0].key != x.key by { assert all[|before|] == x; }
      RemoveMiddle(before[1..], x, after);
      assert before + after == [before[0]] + (before[1..] + after);
    } else {
      assert all[0] == x && all[1..] == after;
      forall k | 0 <= k < |after| ensures after[k].key != x.key {
        assert all[k + 1] == after[k];
      }
      RemoveAbsent(after, x.key);
    }
  }

  lemma {:induction false} RemoveAbsent(fields: seq<Field>, key: string)
    requires forall k | 0 <= k < |fields| :: fields[k].key != key
    ensures Remove(fields, key) == fields
  {
    if fields != [] {
      RemoveAbsent(fields[1..], key);
      assert fields == [fields[0]] + fields[1..];
    }
  }

  // ---------------------------------------------------------------- validation

  datatype Step = Key(key: string) | Index(index: nat)

  datatype Issue = NotAnObject | Protected(key: string) | Credential(path: seq<Step>)

  /** What visiting a value reports, depth first in key order. */
  function Visited(norm: Normalizer, v: Json, path: seq<Step>): seq<Issue>
    decreases v
  {
    match v
    case Arr(elems) => ElemsVisited(norm, elems, path, 0)
    case Obj(fields) => FieldsVisited(norm, fields, path)
    case _ => []
  }

  function ElemsVisited(norm: Normalizer, elems: seq<Json>, path: seq<Step>, from: nat): seq<Issue>
    decreases elems
  {
    if elems == [] then []
    else Visited(norm, elems[0], path + [Index(from)]) + ElemsVisited(norm, elems[1..], path, from + 1)
  }

  function OwnIssues(norm: Normalizer, key: string, path: seq<Step>): seq<Issue> {
    (if path == [] && norm(key) in PROTECTED then [Protected(key)] else [])
    + (if norm(key) in CREDENTIALS then [Credential(path + [Key(key)])] else [])
  }

  function FieldsVisited(norm: Normalizer, fields: seq<Field>, path: seq<Step>): seq<Issue>
    decreases fields
  {
    if fields == [] then []
    else
      OwnIssues(norm, fields[0].key, path) + Visited(norm, fields[0].value, path + [Key(fields[0].key)])
      + FieldsVisited(norm, fields[1..], path)
  }

  function ExtraParamsIssues(norm: Normalizer, v: Json): seq<Issue> {
    if v.Obj? then Visited(norm, v, []) else [NotAnObject]
  }

  /** The recursive visitor, pushing onto the shared list of issues. */
  method Visit(norm: Normalizer, v: Json, path: seq<Step>, issues: Sink<Issue>)
    modifies issues
    ensures issues.items == old(issues.items) + Visited(norm, v, path)
    decreases v, 1
  {
    match v {
      case Arr(elems) => VisitElems(norm, elems, path, issues);
      case Obj(fields) => VisitFields(norm, fields, path, issues);
      case _ =>
    }
  }

  method VisitElems(norm: Normalizer, elems: seq<Json>, path: seq<Step>, issues: Sink<Issue>)
    modifies issues
    ensures issues.items == old(issues.items) + ElemsVisited(norm, elems, path, 0)
    decreases elems, 0
  {
    hide Visited;
    ghost var before := issues.items;
    var i := 0;
    assert elems[0..] == elems;
    while i < |elems|
      invariant 0 <= i <= |elems|
      invariant issues.items + ElemsVisited(norm, elems[i..], path, i) == before + ElemsVisited(norm, elems, path, 0)
    {
      assert elems[i..][0] == elems[i] && elems[i..][1..] == elems[i + 1..];
      ghost var here := Visited(norm, elems[i], path + [Index(i)]);
      ghost var rest := ElemsVisited(norm, elems[i + 1..], path, i + 1);
      assert issues.items + (here + rest) == (issues.items + here) + rest;
      Visit(norm, elems[i], path + [Index(i)], issues);
      i := i + 1;
    }
    assert elems[i..] == [];
  }

  method VisitFields(norm: Normalizer, fields: seq<Field>, path: seq<Step>, issues: Sink<Issue>)
    modifies issues
    ensures issues.items == old(issues.items) + FieldsVisited(norm, fields, path)
    decreases fields, 0
  {
    hide Visited, OwnIssues;
    ghost var before := issues.items;
    var i := 0;
    assert fields[0..] == fields;
    while i < |fields|
      invariant 0 <= i <= |fields|
      invariant issues.items + FieldsVisited(norm, fields[i..], path) == before + FieldsVisited(norm, fields, path)
    {
      assert fields[i..][0] == fields[i] && fields[i..][1..] == fields[i + 1..];
      var key := fields[i].key;
      ghost var own := OwnIssues(norm, key, path);
      ghost var here := Visited(norm, fields[i].value, path + [Key(key)]);
      ghost var rest := FieldsVisited(norm, fields[i + 1..], path);
      assert issues.items + (own + here + rest) == ((issues.items + own) + here) + rest;
      ReportOwn(norm, key, path, issues);
      Visit(norm, fields[i].value, path + [Key(key)], issues);
      i := i + 1;
    }
    assert fields[i..] == [];
  }

  method ReportOwn(norm: Normalizer, key: string, path: seq<Step>, issues: Sink<Issue>)
    modifies issues
    ensures issues.items == old(issues.items) + OwnIssues(norm, key, path)
  {
    var normalized := norm(key);
    if path == [] && normalized in PROTECTED {
      issues.Push(Protected(key));
    }
    if normalized in CREDENTIALS {
      issues.Push(Credential(path + [Key(key)]));
    }
  }

  method ValidateExtraParams(norm: Normalizer, v: Json) returns (found: seq<Issue>)
    ensures found == ExtraParamsIssues(norm, v)
  {
    if !v.Obj? {
      return [NotAnObject];
    }
    var issues := new Sink<Issue>();
    Visit(norm, v, [], issues);
    found := issues.items;
  }

  lemma {:induction false} NoProtectedBelow(norm: Normalizer, v: Json, path: seq<Step>)
    requires path != []
    ensures forall issue | issue in Visited(norm, v, path) :: issue.Credential?
    decreases v
  {
    match v {
      case Arr(elems) => NoProtectedInElems(norm, elems, path, 0);
      case Obj(fields) => NoProtectedInFields(norm, fields, path);
      case _ =>
    }
  }

  lemma {:induction false} NoProtectedInElems(norm: Normalizer, elems: seq<Json>, path: seq<Step>, from: nat)
    ensures forall issue | issue in ElemsVisited(norm, elems, path, from) :: issue.Credential?
    decreases elems
  {
    if elems != [] {
      NoProtectedBelow(norm, elems[0], path + [Index(from)]);
      NoProtectedInElems(norm, elems[1..], path, from + 1);
    }
  }

  lemma {:induction false} NoProtectedInFields(norm: Normalizer, fields: seq<Field>, path: seq<Step>)
    requires path != []
    ensures forall issue | issue in FieldsVisited(norm, fields, path) :: issue.Credential?
    decreases fields
  {
    if fields != [] {
      NoProtectedBelow(norm, fields[0].value, path + [Key(fields[0].key)]);
      NoProtectedInFields(norm, fields[1..], path);
    }
  }

  /** Protection is exactly about the top-level keys, whatever is nested under them. */
  lemma {:induction false} ProtectedIff(norm: Normalizer, fields: seq<Field>, key: string)
    ensures Protected(key) in FieldsVisited(norm, fields, []) <==>
            norm(key) in PROTECTED && HasOwn(fields, key)
    decreases |fields|
  {
    if fields != [] {
      ProtectedIff(norm, fields[1..], key);
      NoProtectedBelow(norm, fields[0].value, [] + [Key(fields[0].key)]);
      var own := OwnIssues(norm, fields[0].key, []);
      var below := Visited(norm, fields[0].value, [] + [Key(fields[0].key)]);
      assert Protected(key) in FieldsVisited(norm, fields, []) <==>
             Protected(key) in own || Protected(key) in below || Protected(key) in FieldsVisited(norm, fields[1..], []);
    }
  }

  // --------------------------------------------- what is reported, spelled out

  /** Names that the request itself uses. */
  predicate NamesRequest(n: string) {
    || n == "model" || n == "messages" || n == "temperature" || n == "maxtokens" || n == "responseformat"
    || n == "stream" || n == "streamoptions" || n == "enablethinking" || n == "reasoningeffort"
    || n == "chattemplatekwargs"
  }

  predicate NamesSecret(n: string) {
    || n == "authorization" || n == "headers" || n == "apikey" || n == "token" || n == "password" || n == "secret"
    || n == "cookie" || n == "setcookie"
  }

  lemma NamesAre(n: string)
    ensures n in PROTECTED <==> NamesRequest(n)
    ensures n in CREDENTIALS <==> NamesSecret(n)
  {
  }

  /** The path leads from this value to a member that normalises to the name of a secret. */
  predicate LeadsToSecret(norm: Normalizer, v: Json, path: seq<Step>)
    decreases |path|
  {
    && path != []
    && match path[0]
       case Key(k) =>
         && v.Obj?
         && if |path| == 1 then (exists f :: f in v.fields && f.key == k) && NamesSecret(norm(k))
            else exists f :: f in v.fields && f.key == k && LeadsToSecret(norm, f.value, path[1..])
       case Index(i) => v.Arr? && i < |v.elems| && LeadsToSecret(norm, v.elems[i], path[1..])
  }

  /** Credential reports of a visit lie strictly below where it started. */
  predicate Below(at: seq<Step>, issues: seq<Issue>) {
    forall issue | issue in issues && issue.Credential? :: |issue.path| > |at| && issue.path[..|at|] == at
  }

  lemma BelowMore(at: seq<Step>, step: Step, issues: seq<Issue>)
    requires Below(at + [step], issues)
    ensures Below(at, issues)
    ensures forall issue | issue in issues && issue.Credential? :: issue.path[|at|] == step
  {
    forall issue | issue in issues && issue.Credential?
      ensures |issue.path| > |at| && issue.path[..|at|] == at && issue.path[|at|] == step
    {
      var n := |at| + 1;
      assert issue.path[..n] == at + [step];
      assert issue.path[..|at|] == issue.path[..n][..|at|];
    }
  }

  lemma {:induction false} ReportsLieBelow(norm: Normalizer, v: Json, at: seq<Step>)
    ensures Below(at, Visited(norm, v, at))
    decreases v, 1
  {
    match v {
      case Arr(elems) => ElemsLieBelow(norm, elems, at, 0);
      case Obj(fields) => FieldsLieBelow(norm, fields, at);
      case _ =>
    }
  }

  lemma {:induction false} ElemsLieBelow(norm: Normalizer, elems: seq<Json>, at: seq<Step>, from: nat)
    ensures Below(at, ElemsVisited(norm, elems, at, from))
    decreases elems, 0
  {
    if elems != [] {
      ReportsLieBelow(norm, elems[0], at + [Index(from)]);
      BelowMore(at, Index(from), Visited(norm, elems[0], at + [Index(from)]));
      ElemsLieBelow(norm, elems[1..], at, from + 1);
    }
  }

  lemma {:induction false} FieldsLieBelow(norm: Normalizer, fields: seq<Field>, at: seq<Step>)
    ensures Below(at, FieldsVisited(norm, fields, at))
    decreases fields, 0
  {
    if fields != [] {
      var key := Key(fields[0].key);
      ReportsLieBelow(norm, fields[0].value, at + [key]);
      BelowMore(at, key, Visited(norm, fields[0].value, at + [key]));
      FieldsLieBelow(norm, fields[1..], at);
    }
  }

  /** A secret is reported wherever it is nested, with the path that leads to it, and nothing else is. */
  lemma {:induction false} CredentialIff(norm: Normalizer, v: Json, at: seq<Step>, path: seq<Step>)
    ensures Credential(at + path) in Visited(norm, v, at) <==> LeadsToSecret(norm, v, path)
    decreases v, 1
  {
    match v {
      case Arr(elems) => ElemsCredential(norm, elems, at, 0, path);
      case Obj(fields) => FieldsCredential(norm, fields, at, path);
      case _ =>
    }
  }

  /** The reports on one child: those whose path goes through it. */
  lemma {:induction false} ChildCredential(norm: Normalizer, child: Json, at: seq<Step>, step: Step, path: seq<Step>)
    ensures Credential(at + path) in Visited(norm, child, at + [step]) <==>
            path != [] && path[0] == step && LeadsToSecret(norm, child, path[1..])
    decreases child, 2
  {
    hide Visited, LeadsToSecret;
    ReportsLieBelow(norm, child, at + [step]);
    BelowMore(at, step, Visited(norm, child, at + [step]));
    if path != [] && path[0] == step {
      assert at + path == (at + [step]) + path[1..];
      CredentialIff(norm, child, at + [step], path[1..]);
    } else if path != [] {
      assert (at + path)[|at|] == path[0];
    }
  }

  lemma {:induction false} ElemsCredential(
    norm: Normalizer, elems: seq<Json>, at: seq<Step>, from: nat, path: seq<Step>)
    ensures Credential(at + path) in ElemsVisited(norm, elems, at, from) <==>
            path != [] && path[0].Index? && from <= path[0].index < from + |elems|
            && LeadsToSecret(norm, elems[path[0].index - from], path[1..])
    decreases elems, 0
  {
    hide Visited, LeadsToSecret;
    if elems != [] {
      ChildCredential(norm, elems[0], at, Index(from), path);
      ElemsCredential(norm, elems[1..], at, from + 1, path);
    }
  }

  lemma OwnCredential(norm: Normalizer, key: string, at: seq<Step>, path: seq<Step>)
    ensures Credential(at + path) in OwnIssues(norm, key, at) <==> path == [Key(key)] && NamesSecret(norm(key))
  {
    hide NamesSecret;
    NamesAre(norm(key));
    if Credential(at + path) in OwnIssues(norm, key, at) {
      assert at + path == at + [Key(key)];
      assert path == (at + path)[|at|..] == (at + [Key(key)])[|at|..] == [Key(key)];
    }
  }

  lemma {:induction false} FieldsCredential(norm: Normalizer, fields: seq<Field>, at: seq<Step>, path: seq<Step>)
    ensures Credential(at + path) in FieldsVisited(norm, fields, at) <==> LeadsToSecret(norm, Obj(fields), path)
    decreases fields, 0
  {
    hide Visited, OwnIssues, NamesSecret;
    if fields != [] {
      OwnCredential(norm, fields[0].key, at, path);
      ChildCredential(norm, fields[0].value, at, Key(fields[0].key), path);
      FieldsCredential(norm, fields[1..], at, path);
      OneFieldLeads(norm, fields, path);
    }
  }

  lemma OneFieldLeads(norm: Normalizer, fields: seq<Field>, path: seq<Step>)
    requires fields != []
    ensures LeadsToSecret(norm, Obj(fields), path) <==>
            || LeadsToSecret(norm, Obj(fields[1..]), path)
            || (path == [Key(fields[0].key)] && NamesSecret(norm(fields[0].key)))
            || (path != [] && path[0] == Key(fields[0].key) && LeadsToSecret(norm, fields[0].value, path[1..]))
  {
    hide NamesSecret;
    assert forall f :: f in fields <==> f == fields[0] || f in fields[1..];
    if |path| == 1 {
      assert path == [path[0]] && path[1..] == [];
      assert !LeadsToSecret(norm, fields[0].value, []);
    }
  }

  /** Protection is exactly about the top-level keys that normalise to a name the request uses. */
  lemma ProtectedIffSpelled(norm: Normalizer, v: Json, key: string)
    ensures Protected(key) in ExtraParamsIssues(norm, v) <==>
            v.Obj? && NamesRequest(norm(key)) && exists f :: f in v.fields && f.key == key
    ensures ExtraParamsIssues(norm, v) == [NotAnObject] <== !v.Obj?
  {
    NamesAre(norm(key));
    hide NamesRequest;
    if v.Obj? {
      ProtectedIff(norm, v.fields, key);
      var i := Find(v.fields, key);
      assert i < |v.fields| ==> v.fields[i] in v.fields;
    }
  }

  // -------------------------------------------------------------------- the lift

  datatype Note =
    | Moved(engine: string, key: string, field: string)
    | Redundant(engine: string, key: string, field: string)

  datatype Conflict = Conflict(engine: string, key: string, field: string, extraValue: Json, fieldValue: Json)

  /** The copies the loop edits, and the lists it pushes to. */
  datatype Work = Work(engine: seq<Field>, extra: seq<Field>, lifted: seq<Note>, conflicts: seq<Conflict>)

  predicate Clashes(engine: seq<Field>, field: string, value: Json) {
    Get(engine, field).Some? && !SameValue(Get(engine, field).value, value)
  }

  function LiftEntry(norm: Normalizer, name: string, w: Work, x: Field): Work {
    match FieldFor(norm(x.key))
    case None => w
    case Some(field) =>
      if Clashes(w.engine, field, x.value) then
        w.(conflicts := w.conflicts + [Conflict(name, x.key, field, x.value, Get(w.engine, field).value)])
      else if Get(w.engine, field).Some? then
        w.(extra := Remove(w.extra, x.key), lifted := w.lifted + [Redundant(name, x.key, field)])
      else
        w.(extra := Remove(w.extra, x.key), engine := Set(w.engine, field, x.value),
           lifted := w.lifted + [Moved(name, x.key, field)])
  }

  function LiftEntries(norm: Normalizer, name: string, w: Work, entries: seq<Field>): Work {
    if entries == [] then w
    else LiftEntry(norm, name, LiftEntries(norm, name, w, entries[..|entries| - 1]), entries[|entries| - 1])
  }

  /** An engine with its lifted entries moved, and the lists of what was done and refused. */
  datatype Lifted = Lifted(value: Json, lifted: seq<Note>, conflicts: seq<Conflict>)

  predicate HasExtras(v: Json) {
    v.Obj? && Get(v.fields, "extraParams").Some? && Get(v.fields, "extraParams").value.Obj?
  }

  function Extras(v: Json): seq<Field>
    requires HasExtras(v)
  {
    Get(v.fields, "extraParams").value.fields
  }

  function Rebuilt(w: Work): Json {
    Obj(if w.extra != [] then Set(w.engine, "extraParams", Obj(w.extra)) else Remove(w.engine, "extraParams"))
  }

  function LiftEngine(norm: Normalizer, name: string, v: Json): Lifted {
    if !HasExtras(v) then Lifted(v, [], [])
    else
      var w := LiftEntries(norm, name, Work(v.fields, Extras(v), [], []), Extras(v));
      Lifted(if w.lifted == [] then v else Rebuilt(w), w.lifted, w.conflicts)
  }

  /** One engine of the loop over engines. */
  method LiftLegacyEngine(norm: Normalizer, name: string, v: Json) returns (r: Lifted)
    ensures r == LiftEngine(norm, name, v)
  {
    if !HasExtras(v) {
      return Lifted(v, [], []);
    }
    hide Get, Set, Remove, SameValue, FieldFor;
    ghost var w0 := Work(v.fields, Extras(v), [], []);
    var entries := Extras(v);
    var engine, extraParams := v.fields, entries;
    var lifted: seq<Note>, conflicts: seq<Conflict> := [], [];
    var engineChanged := false;
    var i := 0;
    while i < |entries|
      invariant 0 <= i <= |entries|
      invariant Work(engine, extraParams, lifted, conflicts) == LiftEntries(norm, name, w0, entries[..i])
      invariant engineChanged <==> lifted != []
    {
      var x := entries[i];
      assert entries[..i + 1][..i] == entries[..i];
      i := i + 1;
      var target := FieldFor(norm(x.key));
      if target.None? {
        continue;
      }
      var field := target.value;
      var existing := Get(engine, field);
      if existing.Some? && !SameValue(existing.value, x.value) {
        conflicts := conflicts + [Conflict(name, x.key, field, x.value, existing.value)];
        continue;
      }
      extraParams := Remove(extraParams, x.key);
      engineChanged := true;
      if existing.Some? {
        lifted := lifted + [Redundant(name, x.key, field)];
        continue;
      }
      engine := Set(engine, field, x.value);
      lifted := lifted + [Moved(name, x.key, field)];
    }
    assert entries[..i] == entries;
    if !engineChanged {
      return Lifted(v, lifted, conflicts);
    }
    r := Lifted(Rebuilt(Work(engine, extraParams, lifted, conflicts)), lifted, conflicts);
  }

  // --------------------------------------------------- what one engine's pass does

  /** Every field that was set is still set to the same value; the extras are another matter. */
  ghost predicate Extends(before: seq<Field>, after: seq<Field>) {
    forall f | f != "extraParams" :: Get(before, f).Some? ==> Get(after, f) == Get(before, f)
  }

  lemma FieldsAreNotExtras(norm: Normalizer, key: string)
    ensures FieldFor(norm(key)) != Some("extraParams")
  {
    assert "extraParams"[0] == 'e' && "enableThinking"[0] == 'e';
    assert |"extraParams"| == 11 && |"enableThinking"| == 14;
  }

  /** No first-class field that was set is overwritten, and only the four fields are ever added. */
  lemma {:induction false} PassExtends(norm: Normalizer, name: string, w: Work, entries: seq<Field>)
    ensures Extends(w.engine, LiftEntries(norm, name, w, entries).engine)
    ensures Get(LiftEntries(norm, name, w, entries).engine, "extraParams") == Get(w.engine, "extraParams")
    decreases |entries|
  {
    hide Get, Set, Remove, SameValue, FieldFor;
    if entries != [] {
      var n := |entries| - 1;
      PassExtends(norm, name, w, entries[..n]);
      var before := LiftEntries(norm, name, w, entries[..n]);
      FieldsAreNotExtras(norm, entries[n].key);
      forall f
        ensures Get(before.engine, f).Some? ==>
                  Get(LiftEntry(norm, name, before, entries[n]).engine, f) == Get(before.engine, f)
      {
        if FieldFor(norm(entries[n].key)).Some? {
          GetSet(before.engine, FieldFor(norm(entries[n].key)).value, entries[n].value, f);
        }
      }
      if FieldFor(norm(entries[n].key)).Some? {
        GetSet(before.engine, FieldFor(norm(entries[n].key)).value, entries[n].value, "extraParams");
      }
    }
  }

  /** The entry conflicts with this engine. */
  predicate Stays(norm: Normalizer, engine: seq<Field>, x: Field) {
    Liftable(norm, x.key) ==> Clashes(engine, FieldFor(norm(x.key)).value, x.value)
  }

  /** What a scan that lifts nothing reports. */
  function ConflictsOf(norm: Normalizer, name: string, engine: seq<Field>, xs: seq<Field>): seq<Conflict>
    requires forall x | x in xs :: Stays(norm, engine, x)
  {
    if xs == [] then []
    else
      var x := xs[|xs| - 1];
      assert x in xs && Stays(norm, engine, x);
      assert forall y | y in xs[..|xs| - 1] :: y in xs;
      ConflictsOf(norm, name, engine, xs[..|xs| - 1])
      + (if Liftable(norm, x.key) then
           var field := FieldFor(norm(x.key)).value;
           [Conflict(name, x.key, field, x.value, Get(engine, field).value)]
         else [])
  }

  /** A pass over entries that all stay changes nothing and reports exactly them. */
  lemma {:induction false} QuietPass(norm: Normalizer, name: string, w: Work, xs: seq<Field>)
    requires forall x | x in xs :: Stays(norm, w.engine, x)
    ensures LiftEntries(norm, name, w, xs) == w.(conflicts := w.conflicts + ConflictsOf(norm, name, w.engine, xs))
    decreases |xs|
  {
    hide Get, SameValue, FieldFor;
    if xs != [] {
      assert forall y | y in xs[..|xs| - 1] :: y in xs;
      assert xs[|xs| - 1] in xs;
      QuietPass(norm, name, w, xs[..|xs| - 1]);
    }
  }

  lemma StaysLater(norm: Normalizer, before: seq<Field>, after: seq<Field>, x: Field)
    requires Stays(norm, before, x) && Extends(before, after)
    ensures Stays(norm, after, x)
    ensures Liftable(norm, x.key) ==>
              Get(after, FieldFor(norm(x.key)).value) == Get(before, FieldFor(norm(x.key)).value)
  {
    FieldsAreNotExtras(norm, x.key);
  }

  /** The pass after `n` entries: `kept` of them remain, they stay for good, and they are the conflicts. */
  ghost predicate PassOk(
    norm: Normalizer, name: string, w: Work, entries: seq<Field>, n: nat, kept: seq<Field>, later: seq<Field>)
    requires n <= |entries|
  {
    && w.extra == kept + entries[n..]
    && (forall x | x in kept :: x in entries[..n] && Stays(norm, later, x))
    && w.conflicts == ConflictsOf(norm, name, later, kept)
    && (forall x | x in entries[..n] && x !in kept ::
          Liftable(norm, x.key) && Get(later, FieldFor(norm(x.key)).value) == Some(x.value))
    && (w.lifted == [] <==> |kept| == n)
    && |kept| <= n
  }

  lemma OneEntry(
    norm: Normalizer, name: string, w: Work, entries: seq<Field>, n: nat, kept: seq<Field>, later: seq<Field>)
    returns (kept': seq<Field>)
    requires OwnKeys(entries) && n < |entries| && OwnKeys(w.extra)
    requires PassOk(norm, name, w, entries, n, kept, later)
    requires Extends(LiftEntry(norm, name, w, entries[n]).engine, later)
    ensures PassOk(norm, name, LiftEntry(norm, name, w, entries[n]), entries, n + 1, kept', later)
  {
    hide Get, Set, FieldFor, Remove;
    var x := entries[n];
    var next := LiftEntry(norm, name, w, x);
    assert entries[n..] == [x] + entries[n + 1..];
    assert entries[..n + 1] == entries[..n] + [x];
    if Liftable(norm, x.key) && !Clashes(w.engine, FieldFor(norm(x.key)).value, x.value) {
      kept' := kept;
      assert w.extra == kept + [x] + entries[n + 1..];
      RemoveMiddle(kept, x, entries[n + 1..]);
      GetSet(w.engine, FieldFor(norm(x.key)).value, x.value, FieldFor(norm(x.key)).value);
      SameIsEqual(norm, w, x);
      FieldsAreNotExtras(norm, x.key);
    } else {
      kept' := kept + [x];
      assert kept' + entries[n + 1..] == kept + entries[n..];
      assert kept'[..|kept'| - 1] == kept;
      StaysLater(norm, w.engine, later, x);
    }
  }

  lemma SameIsEqual(norm: Normalizer, w: Work, x: Field)
    requires Liftable(norm, x.key) && !Clashes(w.engine, FieldFor(norm(x.key)).value, x.value)
    ensures Get(w.engine, FieldFor(norm(x.key)).value).Some? ==>
              Get(w.engine, FieldFor(norm(x.key)).value) == Some(x.value)
  {
  }

  lemma {:induction false} RemoveKeepsOwnKeys(fields: seq<Field>, key: string)
    requires OwnKeys(fields)
    ensures OwnKeys(Remove(fields, key))
    ensures forall x | x in Remove(fields, key) :: x in fields
  {
    if fields != [] {
      RemoveKeepsOwnKeys(fields[1..], key);
      var rest := Remove(fields[1..], key);
      assert forall x | x in fields[1..] :: x in fields;
      forall k | 0 <= k < |rest| ensures rest[k].key != fields[0].key {
        assert rest[k] in rest && rest[k] in fields[1..];
      }
    }
  }

  lemma {:induction false} Pass(
    norm: Normalizer, name: string, engine: seq<Field>, entries: seq<Field>, n: nat, later: seq<Field>)
    returns (kept: seq<Field>)
    requires OwnKeys(entries) && n <= |entries|
    requires Extends(LiftEntries(norm, name, Work(engine, entries, [], []), entries[..n]).engine, later)
    ensures PassOk(norm, name, LiftEntries(norm, name, Work(engine, entries, [], []), entries[..n]),
                   entries, n, kept, later)
    ensures OwnKeys(LiftEntries(norm, name, Work(engine, entries, [], []), entries[..n]).extra)
    decreases n
  {
    hide *;
    if n == 0 {
      kept := PassStart(norm, name, engine, entries, later);
    } else {
      var w0 := Work(engine, entries, [], []);
      EntriesStep(norm, name, w0, entries, n - 1);
      var w := LiftEntries(norm, name, w0, entries[..n - 1]);
      EntryExtends(norm, name, w, entries[n - 1]);
      ExtendsTrans(w.engine, LiftEntry(norm, name, w, entries[n - 1]).engine, later);
      var before := Pass(norm, name, engine, entries, n - 1, later);
      kept := OneEntry(norm, name, w, entries, n - 1, before, later);
      EntryKeepsOwnKeys(norm, name, w, entries[n - 1]);
    }
  }

  lemma PassStart(norm: Normalizer, name: string, engine: seq<Field>, entries: seq<Field>, later: seq<Field>)
    returns (kept: seq<Field>)
    requires OwnKeys(entries)
    ensures PassOk(norm, name, LiftEntries(norm, name, Work(engine, entries, [], []), entries[..0]),
                   entries, 0, kept, later)
    ensures OwnKeys(LiftEntries(norm, name, Work(engine, entries, [], []), entries[..0]).extra)
  {
    kept := [];
    assert [] + entries[0..] == entries;
  }

  lemma ExtendsTrans(a: seq<Field>, b: seq<Field>, c: seq<Field>)
    requires Extends(a, b) && Extends(b, c)
    ensures Extends(a, c)
  {
  }

  lemma EntriesStep(norm: Normalizer, name: string, w: Work, entries: seq<Field>, n: nat)
    requires n < |entries|
    ensures LiftEntries(norm, name, w, entries[..n + 1])
         == LiftEntry(norm, name, LiftEntries(norm, name, w, entries[..n]), entries[n])
  {
    hide LiftEntry;
    assert entries[..n + 1][..n] == entries[..n];
  }

  lemma EntryKeepsOwnKeys(norm: Normalizer, name: string, w: Work, x: Field)
    requires OwnKeys(w.extra)
    ensures OwnKeys(LiftEntry(norm, name, w, x).extra)
  {
    RemoveKeepsOwnKeys(w.extra, x.key);
  }

  lemma EntryExtends(norm: Normalizer, name: string, w: Work, x: Field)
    ensures Extends(w.engine, LiftEntry(norm, name, w, x).engine)
  {
    PassExtends(norm, name, w, [x]);
    assert [x][..0] == [];
    assert LiftEntries(norm, name, w, []) == w;
  }

  // ---------------------------------------------------------------- one engine

  /** The fields of the engine a pass leaves behind. */
  lemma RebuiltFields(norm: Normalizer, name: string, v: Json)
    requires HasExtras(v)
    ensures var w := LiftEntries(norm, name, Work(v.fields, Extras(v), [], []), Extras(v));
            && Extends(w.engine, Rebuilt(w).fields)
            && (w.extra == [] ==> !HasExtras(Rebuilt(w)))
            && (w.extra != [] ==> HasExtras(Rebuilt(w)) && Extras(Rebuilt(w)) == w.extra)
  {
    hide Get, Set, Remove, LiftEntries;
    var w := LiftEntries(norm, name, Work(v.fields, Extras(v), [], []), Extras(v));
    forall f ensures Get(Rebuilt(w).fields, f)
                  == if f == "extraParams" then (if w.extra != [] then Some(Obj(w.extra)) else None)
                     else Get(w.engine, f)
    {
      GetSet(w.engine, "extraParams", Obj(w.extra), f);
      GetRemove(w.engine, "extraParams", f);
    }
  }

  ghost predicate EngineOk(v: Json) {
    HasExtras(v) ==> OwnKeys(Extras(v))
  }

  /** What is left under extraParams after a pass: exactly the entries that stay. */
  lemma PassLeaves(norm: Normalizer, name: string, v: Json) returns (kept: seq<Field>)
    requires HasExtras(v) && EngineOk(v)
    ensures var w := LiftEntries(norm, name, Work(v.fields, Extras(v), [], []), Extras(v));
            && w.extra == kept && (w.lifted == [] ==> kept == Extras(v))
            && PassOk(norm, name, w, Extras(v), |Extras(v)|, kept, Rebuilt(w).fields)
            && PassOk(norm, name, w, Extras(v), |Extras(v)|, kept, w.engine)
            && Extends(v.fields, w.engine)
  {
    hide Get, Set, Remove, SameValue, FieldFor, LiftEntry;
    var entries := Extras(v);
    var n := |entries|;
    assert entries[..n] == entries && entries[n..] == [];
    var w0 := Work(v.fields, entries, [], []);
    var w := LiftEntries(norm, name, w0, entries);
    RebuiltFields(norm, name, v);
    PassExtends(norm, name, w0, entries);
    kept := Pass(norm, name, v.fields, entries, n, Rebuilt(w).fields);
    var again := Pass(norm, name, v.fields, entries, n, w.engine);
    assert w.extra == kept + [] == kept;
    assert w.extra == again + [] == again;
    if w.lifted == [] {
      NothingRemoved(norm, name, w0, entries);
    }
  }

  lemma {:induction false} NothingRemoved(norm: Normalizer, name: string, w: Work, entries: seq<Field>)
    requires LiftEntries(norm, name, w, entries).lifted == []
    ensures LiftEntries(norm, name, w, entries).extra == w.extra && w.lifted == []
    ensures LiftEntries(norm, name, w, entries).engine == w.engine
    decreases |entries|
  {
    hide Get, Set, Remove, SameValue, FieldFor;
    if entries != [] {
      NothingRemoved(norm, name, w, entries[..|entries| - 1]);
    }
  }

  /** A second pass lifts nothing, changes nothing, and reports the same conflicts. */
  lemma LiftEngineTwice(norm: Normalizer, name: string, v: Json)
    requires EngineOk(v)
    ensures var r := LiftEngine(norm, name, v);
            LiftEngine(norm, name, r.value) == Lifted(r.value, [], r.conflicts)
  {
    hide Get, Set, Remove, SameValue, FieldFor, LiftEntry, PassOk;
    if HasExtras(v) {
      var w := LiftEntries(norm, name, Work(v.fields, Extras(v), [], []), Extras(v));
      if w.lifted != [] {
        var kept := PassLeaves(norm, name, v);
        RebuiltFields(norm, name, v);
        var after := Rebuilt(w).fields;
        PassConflicts(norm, name, w, Extras(v), kept, after);
        if kept != [] {
          QuietPass(norm, name, Work(after, kept, [], []), kept);
          assert [] + ConflictsOf(norm, name, after, kept) == w.conflicts;
        }
      }
    }
  }

  lemma PassConflicts(
    norm: Normalizer, name: string, w: Work, entries: seq<Field>, kept: seq<Field>, later: seq<Field>)
    requires PassOk(norm, name, w, entries, |entries|, kept, later)
    ensures forall x | x in kept :: Stays(norm, later, x)
    ensures w.conflicts == ConflictsOf(norm, name, later, kept)
  {
  }

  /** Nothing is lost and nothing is overwritten: every field that was set is unchanged, and every extra is
      still there or has become the value of its field. */
  lemma LiftEngineLosesNothing(norm: Normalizer, name: string, v: Json, x: Field)
    requires HasExtras(v) && EngineOk(v) && x in Extras(v)
    ensures var r := LiftEngine(norm, name, v).value;
            && r.Obj? && Extends(v.fields, r.fields)
            && (|| (HasExtras(r) && x in Extras(r))
                || (Liftable(norm, x.key) && Get(r.fields, FieldFor(norm(x.key)).value) == Some(x.value)))
  {
    hide Get, Set, Remove, SameValue, FieldFor, LiftEntry;
    var entries := Extras(v);
    var kept := PassLeaves(norm, name, v);
    RebuiltFields(norm, name, v);
    assert entries[..|entries|] == entries;
  }

  /** What stays liftable is exactly what is reported as a conflict. */
  lemma LeftoversAreConflicts(norm: Normalizer, name: string, v: Json, key: string)
    requires HasExtras(v) && EngineOk(v)
    ensures var r := LiftEngine(norm, name, v);
            (HasExtras(r.value) && Liftable(norm, key) && HasOwn(Extras(r.value), key))
            <==> (exists c :: c in r.conflicts && c.key == key)
  {
    hide Set, Remove, SameValue, FieldFor, LiftEntry, Get, PassOk;
    var kept := PassLeaves(norm, name, v);
    RebuiltFields(norm, name, v);
    var w := LiftEntries(norm, name, Work(v.fields, Extras(v), [], []), Extras(v));
    PassConflicts(norm, name, w, Extras(v), kept, w.engine);
    ConflictKeys(norm, name, w.engine, kept, key);
    assert HasOwn(kept, key) <==> exists x :: x in kept && x.key == key by { HasOwnIff(kept, key); }
  }

  lemma HasOwnIff(fields: seq<Field>, key: string)
    ensures HasOwn(fields, key) <==> exists x :: x in fields && x.key == key
  {
    var i := Find(fields, key);
    if i < |fields| {
      assert fields[i] in fields;
    }
  }

  lemma {:induction false} ConflictKeys(norm: Normalizer, name: string, engine: seq<Field>, xs: seq<Field>, key: string)
    requires forall x | x in xs :: Stays(norm, engine, x)
    ensures (exists c :: c in ConflictsOf(norm, name, engine, xs) && c.key == key)
            <==> Liftable(norm, key) && exists x :: x in xs && x.key == key
    decreases |xs|
  {
    hide Get, SameValue, FieldFor;
    if xs != [] {
      var n := |xs| - 1;
      assert forall y | y in xs[..n] :: y in xs;
      assert xs[n] in xs && Stays(norm, engine, xs[n]);
      ConflictKeys(norm, name, engine, xs[..n], key);
      assert forall x | x in xs :: x in xs[..n] || x == xs[n];
      var all, before := ConflictsOf(norm, name, engine, xs), ConflictsOf(norm, name, engine, xs[..n]);
      assert forall c | c in before :: c in all;
      if Liftable(norm, xs[n].key) {
        assert all[|before|].key == xs[n].key && all[|before|] in all;
        assert forall c | c in all :: c in before || c == all[|before|];
      } else {
        assert all == before;
      }
    }
  }

  /** When an engine is left untouched, whether it has conflicts or not: exactly when each of its extras that has
      a first-class field finds that field already set to a different value. */
  lemma UntouchedIff(norm: Normalizer, name: string, v: Json)
    requires HasExtras(v) && EngineOk(v)
    ensures LiftEngine(norm, name, v).value == v <==>
            forall x | x in Extras(v) && FieldFor(norm(x.key)).Some? ::
              var had := Get(v.fields, FieldFor(norm(x.key)).value);
              had.Some? && !SameValue(had.value, x.value)
  {
    assert forall x: Field :: Stays(norm, v.fields, x) <==>
             (FieldFor(norm(x.key)).Some? ==>
                var had := Get(v.fields, FieldFor(norm(x.key)).value);
                had.Some? && !SameValue(had.value, x.value));
    hide Get, Set, Remove, SameValue, FieldFor, LiftEntry, PassOk, Stays;
    var w0 := Work(v.fields, Extras(v), [], []);
    var w := LiftEntries(norm, name, w0, Extras(v));
    if forall x | x in Extras(v) :: Stays(norm, v.fields, x) {
      QuietPass(norm, name, w0, Extras(v));
    }
    if LiftEngine(norm, name, v).value == v {
      var kept := PassLeaves(norm, name, v);
      RebuiltFields(norm, name, v);
      PassCounts(norm, name, w, Extras(v), kept, w.engine);
      NothingRemoved(norm, name, w0, Extras(v));
      PassConflicts(norm, name, w, Extras(v), kept, w.engine);
    }
  }

  lemma PassCounts(
    norm: Normalizer, name: string, w: Work, entries: seq<Field>, kept: seq<Field>, later: seq<Field>)
    requires PassOk(norm, name, w, entries, |entries|, kept, later)
    ensures w.extra == kept && (w.lifted == [] <==> |kept| == |entries|)
  {
    assert kept + entries[|entries|..] == kept;
  }

  /** After a lift without conflicts, validation finds none of the four liftable keys. */
  lemma CleanLiftValidates(norm: Normalizer, name: string, v: Json, key: string)
    requires HasExtras(v) && EngineOk(v) && LiftEngine(norm, name, v).conflicts == []
    requires HasExtras(LiftEngine(norm, name, v).value) && Liftable(norm, key)
    ensures Protected(key) !in ExtraParamsIssues(norm, Obj(Extras(LiftEngine(norm, name, v).value)))
  {
    hide Get, Set, Remove, SameValue, LiftEntry;
    LeftoversAreConflicts(norm, name, v, key);
    ProtectedIff(norm, Extras(LiftEngine(norm, name, v).value), key);
  }

  // ---------------------------------------------------------------- the whole config

  datatype LiftResult = LiftResult(config: seq<Field>, lifted: seq<Note>, conflicts: seq<Conflict>)

  datatype Engines = Engines(fields: seq<Field>, lifted: seq<Note>, conflicts: seq<Conflict>)

  function LiftEngines(norm: Normalizer, engines: seq<Field>): Engines {
    if engines == [] then Engines([], [], [])
    else
      var before := LiftEngines(norm, engines[..|engines| - 1]);
      var last := engines[|engines| - 1];
      var r := LiftEngine(norm, last.key, last.value);
      Engines(before.fields + [Field(last.key, r.value)], before.lifted + r.lifted, before.conflicts + r.conflicts)
  }

  function AfterEngine(norm: Normalizer, before: Engines, e: Field): Engines {
    var r := LiftEngine(norm, e.key, e.value);
    Engines(before.fields + [Field(e.key, r.value)], before.lifted + r.lifted, before.conflicts + r.conflicts)
  }

  lemma EnginesStep(norm: Normalizer, engines: seq<Field>, e: Field)
    ensures LiftEngines(norm, engines + [e]) == AfterEngine(norm, LiftEngines(norm, engines), e)
  {
    hide LiftEngine;
    assert (engines + [e])[..|engines|] == engines;
  }

  predicate HasEngines(raw: seq<Field>) {
    Get(raw, "engines").Some? && Get(raw, "engines").value.Obj?
  }

  function Lift(norm: Normalizer, raw: seq<Field>): LiftResult {
    if !HasEngines(raw) then LiftResult(raw, [], [])
    else
      var e := LiftEngines(norm, Get(raw, "engines").value.fields);
      LiftResult(if e.lifted == [] then raw else Set(raw, "engines", Obj(e.fields)), e.lifted, e.conflicts)
  }

  method LiftLegacyEngineExtraParams(norm: Normalizer, raw: seq<Field>) returns (r: LiftResult)
    ensures r == Lift(norm, raw)
  {
    if !HasEngines(raw) {
      return LiftResult(raw, [], []);
    }
    hide Get, Set, LiftEngines;
    var engines, lifted, conflicts := LiftEach(norm, Get(raw, "engines").value.fields);
    var anyEngineChanged := lifted != [];
    r := LiftResult(if anyEngineChanged then Set(raw, "engines", Obj(engines)) else raw, lifted, conflicts);
  }

  /** The loop over the engines. */
  method LiftEach(norm: Normalizer, rawEngines: seq<Field>)
    returns (engines: seq<Field>, lifted: seq<Note>, conflicts: seq<Conflict>)
    ensures Engines(engines, lifted, conflicts) == LiftEngines(norm, rawEngines)
  {
    hide LiftEngine, LiftEngines;
    engines, lifted, conflicts := [], [], [];
    NoEngines(norm);
    for i := 0 to |rawEngines|
      invariant Engines(engines, lifted, conflicts) == LiftEngines(norm, rawEngines[..i])
    {
      assert rawEngines[..i + 1] == rawEngines[..i] + [rawEngines[i]];
      EnginesStep(norm, rawEngines[..i], rawEngines[i]);
      var one := LiftLegacyEngine(norm, rawEngines[i].key, rawEngines[i].value);
      engines := engines + [Field(rawEngines[i].key, one.value)];
      lifted := lifted + one.lifted;
      conflicts := conflicts + one.conflicts;
    }
    assert rawEngines[..|rawEngines|] == rawEngines;
  }

  lemma NoEngines(norm: Normalizer)
    ensures LiftEngines(norm, []) == Engines([], [], [])
  {
  }

  /** The four extras that move, and the fields they move to. */
  lemma FieldsAre(n: string, field: string)
    ensures FieldFor(n) == Some(field) <==>
            || (n == "temperature" && field == "temperature") || (n == "maxtokens" && field == "maxTokens")
            || (n == "enablethinking" && field == "enableThinking")
            || (n == "reasoningeffort" && field == "reasoningEffort")
  {
    assert "temperature"[0] == 't' && "maxtokens"[0] == 'm';
    assert "enablethinking"[0] == 'e' && "reasoningeffort"[0] == 'r';
  }

  lemma {:induction false} EachEngine(norm: Normalizer, engines: seq<Field>)
    ensures |LiftEngines(norm, engines).fields| == |engines|
    ensures forall i | 0 <= i < |engines| ::
              LiftEngines(norm, engines).fields[i]
              == Field(engines[i].key, LiftEngine(norm, engines[i].key, engines[i].value).value)
    ensures forall note :: note in LiftEngines(norm, engines).lifted <==>
              exists e :: e in engines && note in LiftEngine(norm, e.key, e.value).lifted
    ensures forall c :: c in LiftEngines(norm, engines).conflicts <==>
              exists e :: e in engines && c in LiftEngine(norm, e.key, e.value).conflicts
    decreases |engines|
  {
    hide LiftEngine;
    if engines != [] {
      var n := |engines| - 1;
      EachEngine(norm, engines[..n]);
      assert engines == engines[..n] + [engines[n]];
    }
  }

  /** The lift is the pass over each engine, in order, and touches nothing else of the config. */
  lemma LiftIsPerEngine(norm: Normalizer, raw: seq<Field>)
    requires Get(raw, "engines").Some? && Get(raw, "engines").value.Obj?
    ensures var engines := Get(raw, "engines").value.fields; var r := Lift(norm, raw);
            && HasEngines(r.config)
            && var lifted := Get(r.config, "engines").value.fields;
               && |lifted| == |engines|
               && (forall i | 0 <= i < |engines| ::
                     lifted[i] == Field(engines[i].key, LiftEngine(norm, engines[i].key, engines[i].value).value))
               && (forall key | key != "engines" :: Get(r.config, key) == Get(raw, key))
               && (forall note :: note in r.lifted <==>
                     exists e :: e in engines && note in LiftEngine(norm, e.key, e.value).lifted)
               && (forall c :: c in r.conflicts <==>
                     exists e :: e in engines && c in LiftEngine(norm, e.key, e.value).conflicts)
  {
    assert HasEngines(raw);
    hide LiftEngine, Get, Set, LiftEngines;
    var engines := Get(raw, "engines").value.fields;
    EachEngine(norm, engines);
    var out := LiftEngines(norm, engines);
    forall key ensures Get(Set(raw, "engines", Obj(out.fields)), key)
                    == if key == "engines" then Some(Obj(out.fields)) else Get(raw, key) {
      GetSet(raw, "engines", Obj(out.fields), key);
    }
    if out.lifted == [] {
      UnliftedEngines(norm, engines);
    }
  }

  lemma NothingToLift(norm: Normalizer, name: string, raw: seq<Field>, v: Json)
    ensures Get(raw, "engines").None? || !Get(raw, "engines").value.Obj? ==> Lift(norm, raw) == LiftResult(raw, [], [])
    ensures HasExtras(v) <==> v.Obj? && Get(v.fields, "extraParams").Some? && Get(v.fields, "extraParams").value.Obj?
    ensures !HasExtras(v) ==> LiftEngine(norm, name, v) == Lifted(v, [], [])
    ensures HasExtras(v) ==> Get(v.fields, "extraParams") == Some(Obj(Extras(v)))
  {
  }

  lemma {:induction false} UnliftedEngines(norm: Normalizer, engines: seq<Field>)
    requires LiftEngines(norm, engines).lifted == []
    ensures LiftEngines(norm, engines).fields == engines
    decreases |engines|
  {
    hide LiftEngine;
    if engines != [] {
      var n := |engines| - 1;
      UnliftedEngines(norm, engines[..n]);
      UnliftedIsUnchanged(norm, engines[n].key, engines[n].value);
      assert engines == engines[..n] + [engines[n]];
    }
  }

  /** Objects have their own keys once, as JavaScript objects do. */
  ghost predicate ConfigOk(raw: seq<Field>) {
    HasEngines(raw) ==> forall e | e in Get(raw, "engines").value.fields :: EngineOk(e.value)
  }

  lemma {:induction false} LiftEnginesTwice(norm: Normalizer, engines: seq<Field>)
    requires forall e | e in engines :: EngineOk(e.value)
    ensures var r := LiftEngines(norm, engines);
            LiftEngines(norm, r.fields) == Engines(r.fields, [], r.conflicts)
    ensures LiftEngines(norm, engines).lifted == [] ==> LiftEngines(norm, engines).fields == engines
    decreases |engines|
  {
    hide LiftEngine, LiftEngines, EngineOk;
    if engines == [] {
      NoEngines(norm);
    } else {
      var n := |engines| - 1;
      var init, last := engines[..n], engines[n];
      assert forall e | e in init :: e in engines;
      assert last in engines;
      LiftEnginesTwice(norm, init);
      LiftEngineTwice(norm, last.key, last.value);
      UnliftedIsUnchanged(norm, last.key, last.value);
      assert engines == init + [last];
      OneMoreTwice(norm, init, last);
    }
  }

  lemma OneMoreTwice(norm: Normalizer, init: seq<Field>, last: Field)
    requires var r := LiftEngines(norm, init);
             && LiftEngines(norm, r.fields) == Engines(r.fields, [], r.conflicts)
             && (r.lifted == [] ==> r.fields == init)
    requires var o := LiftEngine(norm, last.key, last.value);
             && LiftEngine(norm, last.key, o.value) == Lifted(o.value, [], o.conflicts)
             && (o.lifted == [] ==> o.value == last.value)
    ensures var r := LiftEngines(norm, init + [last]);
            && LiftEngines(norm, r.fields) == Engines(r.fields, [], r.conflicts)
            && (r.lifted == [] ==> r.fields == init + [last])
  {
    hide LiftEngine, LiftEngines;
    EnginesStep(norm, init, last);
    EnginesStep(norm, LiftEngines(norm, init).fields, Field(last.key, LiftEngine(norm, last.key, last.value).value));
  }

  lemma UnliftedIsUnchanged(norm: Normalizer, name: string, v: Json)
    ensures LiftEngine(norm, name, v).lifted == [] ==> LiftEngine(norm, name, v).value == v
  {
  }

  /** The lift is idempotent: a second pass lifts nothing, leaves the config as it is, and reports the same
      conflicts again. */
  lemma LiftIsIdempotent(norm: Normalizer, raw: seq<Field>)
    requires ConfigOk(raw)
    ensures var r := Lift(norm, raw);
            Lift(norm, r.config) == LiftResult(r.config, [], r.conflicts)
  {
    hide LiftEngine, Get, Set;
    if HasEngines(raw) {
      var engines := Get(raw, "engines").value.fields;
      LiftEnginesTwice(norm, engines);
      GetSet(raw, "engines", Obj(LiftEngines(norm, engines).fields), "engines");
    }
  }

  /** The header comment says that an engine with a conflict is left untouched. The loop does not do that: the
      engine's other keys are lifted all the same. */
  lemma ConflictDoesNotStopTheLift(norm: Normalizer, had: Json, wanted: Json, limit: Json)
    requires norm("temperature") == "temperature" && norm("max_tokens") == "maxtokens" && !SameValue(had, wanted)
    ensures var v := Obj([Field("temperature", had),
                          Field("extraParams", Obj([Field("temperature", wanted), Field("max_tokens", limit)]))]);
            var r := LiftEngine(norm, "engine", v);
            && r.conflicts == [Conflict("engine", "temperature", "temperature", wanted, had)]
            && r.lifted == [Moved("engine", "max_tokens", "maxTokens")]
            && r.value != v
  {
    hide Set, Remove, SameValue;
    var x, y := Field("temperature", wanted), Field("max_tokens", limit);
    var fields := [Field("temperature", had), Field("extraParams", Obj([x, y]))];
    Distinct();
    FindIs(fields, "temperature", 0);
    FindIs(fields, "extraParams", 1);
    FindIs(fields, "maxTokens", 2);
    var w0 := Work(fields, [x, y], [], []);
    assert [x, y][..1] == [x] && [x][..0] == [];
    var w1 := LiftEntry(norm, "engine", w0, x);
    var w2 := LiftEntry(norm, "engine", w1, y);
    assert LiftEntries(norm, "engine", w0, [x]) == w1;
    assert LiftEntries(norm, "engine", w0, [x, y]) == w2;
    GetSet(fields, "maxTokens", limit, "maxTokens");
    GetSet(w2.engine, "extraParams", Obj(w2.extra), "maxTokens");
    GetRemove(w2.engine, "extraParams", "maxTokens");
  }

  lemma Distinct()
    ensures "temperature" != "extraParams" && "temperature" != "maxTokens" && "extraParams" != "maxTokens"
    ensures FieldFor("temperature") == Some("temperature") && FieldFor("maxtokens") == Some("maxTokens")
  {
    assert "temperature"[0] == 't' && "extraParams"[0] == 'e' && "maxTokens"[0] == 'm' && "maxtokens"[0] == 'm';
  }
}
