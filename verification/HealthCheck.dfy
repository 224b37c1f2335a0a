/** The body checks of the `health_check` action. */
module HealthCheck {
  import opened JsonValue
  import opened Wrappers
  import opened Text

  /** `Value::get` with a string: a field of an object. */
  function Field(v: Json, key: string): Option<Json> {
    if v.Obj? && key in v.fields then Some(v.fields[key]) else None
  }

  predicate IsTrue(v: Option<Json>) {
    v == Some(Bool(true))
  }

  // ---- Paths

  function Walk(root: Json, segs: seq<string>): Option<Json> {
    if segs == [] then Some(root)
    else if segs[0] == "" then Walk(root, segs[1..])
    else
      match Field(root, segs[0])
      case None => None
      case Some(v) => Walk(v, segs[1..])
  }

  function PathGet(root: Json, path: string): Option<Json> {
    Walk(root, Split(path, '.'))
  }

  /** `json_path_get`. */
  method JsonPathGet(root: Json, path: string) returns (r: Option<Json>)
    ensures r == PathGet(root, path)
  {
    hide Split;
    var cur := root;
    var segs := Split(path, '.');
    for i := 0 to |segs|
      invariant Walk(cur, segs[i..]) == PathGet(root, path)
    {
      assert segs[i..][1..] == segs[i + 1..];
      if segs[i] == "" {
        continue;
      }
      var next := Field(cur, segs[i]);
      if next.None? { return None; }
      cur := next.value;
    }
    return Some(cur);
  }

  lemma {:induction false} WalkAppend(root: Json, a: seq<string>, b: seq<string>)
    ensures Walk(root, a + b) == if Walk(root, a).Some? then Walk(Walk(root, a).value, b) else None
  {
    if a == [] {
      assert a + b == b;
    } else {
      assert (a + b)[1..] == a[1..] + b;
      if a[0] == "" {
        WalkAppend(root, a[1..], b);
      } else if Field(root, a[0]).Some? {
        WalkAppend(Field(root, a[0]).value, a[1..], b);
      }
    }
  }

  /** Looking up `p.q` is looking up `q` in what `p` names, whatever the two paths contain. */
  lemma PathComposes(root: Json, p: string, q: string)
    ensures PathGet(root, p + "." + q) ==
            if PathGet(root, p).Some? then PathGet(PathGet(root, p).value, q) else None
  {
    SplitAppend(p, '.', q);
    assert p + "." + q == p + ['.'] + q;
    WalkAppend(root, Split(p, '.'), Split(q, '.'));
  }

  lemma WalkOne(root: Json, key: string)
    ensures Walk(root, [key]) == if key == "" then Some(root) else Field(root, key)
  {
    var segs := [key];
    assert segs[1..] == [];
  }

  /** The empty path names the whole, and a single key the field of that name; with `PathComposes`, every path. */
  lemma KeyNamesField(root: Json, key: string)
    requires Lacks(key, '.')
    ensures PathGet(root, key) == if key == "" then Some(root)
                                  else if root.Obj? && key in root.fields then Some(root.fields[key]) else None
  {
    assert Split(key, '.') == [key];
    hide Split, Walk;
    WalkOne(root, key);
  }

  /** Dots at either end and in a row do not matter: only the non-empty segments count. */
  lemma {:induction false} EmptySegmentsSkipped(root: Json, segs: seq<string>)
    ensures Walk(root, segs) == Walk(root, NonEmpty(segs))
  {
    if segs != [] {
      if segs[0] == "" {
        EmptySegmentsSkipped(root, segs[1..]);
      } else if Field(root, segs[0]).Some? {
        EmptySegmentsSkipped(Field(root, segs[0]).value, segs[1..]);
      }
    }
  }

  // ---- Per-logical states

  predicate EntryOk(entry: Json) {
    Field(entry, "state") == Some(Str("ok"))
  }

  ghost predicate PerLogicalOk(root: Json) {
    match Field(root, "per_logical")
    case Some(Obj(entries)) => forall k :: k in entries ==> EntryOk(entries[k])
    case _ => false
  }

  /** `per_logical_all_state_ok`: the entries in any order. */
  method PerLogicalAllStateOk(root: Json) returns (ok: bool)
    ensures ok == PerLogicalOk(root)
  {
    var found := Field(root, "per_logical");
    if found.None? || !found.value.Obj? { return false; }
    var entries := found.value.fields;
    var left := entries.Keys;
    while left != {}
      invariant left <= entries.Keys
      invariant forall k :: k in entries && k !in left ==> EntryOk(entries[k])
    {
      var k :| k in left;
      if !EntryOk(entries[k]) { return false; }
      left := left - {k};
    }
    return true;
  }

  // ---- The verdict

  /** Why a body is rejected; `NoDetail` stands for the empty text. */
  datatype Detail =
    | NoDetail | EmbeddedMode | WrongMode(mode: Option<string>) | ModeNotJson | PerLogicalNotOk | PerLogicalNotJson
    | AssertionFailed(path: string, expected: Json, got: Option<Json>) | AssertionsNotJson

  datatype AssertionError = MissingPath | MissingEquals

  function StringField(v: Json, key: string): Option<string> {
    match Field(v, key)
    case Some(Str(s)) => Some(s)
    case _ => None
  }

  function ModeDetail(payload: Json, parsed: Option<Json>, statusOk: bool): Detail {
    if !IsTrue(Field(payload, "require_mode_remote")) then NoDetail
    else if parsed.None? then if statusOk then ModeNotJson else NoDetail
    else
      var mode := StringField(parsed.value, "mode");
      if mode == Some("embedded_aliased_as_tikv") then EmbeddedMode
      else if statusOk && mode != Some("remote") then WrongMode(mode)
      else NoDetail
  }

  ghost function PerLogicalDetail(payload: Json, parsed: Option<Json>): Detail {
    if !IsTrue(Field(payload, "require_all_per_logical_state_ok")) then NoDetail
    else if parsed.None? then PerLogicalNotJson
    else if !PerLogicalOk(parsed.value) then PerLogicalNotOk
    else NoDetail
  }

  /** Entry by entry: malformed, failing, or holding. */
  function AssertionVerdict(root: Json, a: Json): Result<Detail, AssertionError> {
    match (StringField(a, "path"), Field(a, "equals"))
    case (None, _) => Err(MissingPath)
    case (_, None) => Err(MissingEquals)
    case (Some(path), Some(expected)) =>
      var got := PathGet(root, path);
      if got == Some(expected) then Ok(NoDetail) else Ok(AssertionFailed(path, expected, got))
  }

  predicate Holds(root: Json, a: Json) {
    AssertionVerdict(root, a) == Ok(NoDetail)
  }

  function AssertionsVerdict(root: Json, entries: seq<Json>): Result<Detail, AssertionError> {
    if entries == [] then Ok(NoDetail)
    else if Holds(root, entries[0]) then AssertionsVerdict(root, entries[1..])
    else AssertionVerdict(root, entries[0])
  }

  function AssertionEntries(payload: Json): Option<seq<Json>> {
    match Field(payload, "body_json_assertions")
    case Some(Arr(entries)) => Some(entries)
    case _ => None
  }

  function AssertionsDetail(payload: Json, parsed: Option<Json>): Result<Detail, AssertionError> {
    match AssertionEntries(payload)
    case None => Ok(NoDetail)
    case Some(entries) => if parsed.None? then Ok(AssertionsNotJson) else AssertionsVerdict(parsed.value, entries)
  }

  /** A later rejection replaces an earlier one. */
  function Later(first: Detail, second: Detail): Detail {
    if second.NoDetail? then first else second
  }

  ghost function Verdict(payload: Json, parsed: Option<Json>, statusOk: bool): Result<(bool, Detail), AssertionError> {
    var mode := ModeDetail(payload, parsed, statusOk);
    if !statusOk then Ok((mode.NoDetail?, mode))
    else
      match AssertionsDetail(payload, parsed)
      case Err(e) => Err(e)
      case Ok(assertion) =>
        var detail := Later(Later(mode, PerLogicalDetail(payload, parsed)), assertion);
        Ok((detail.NoDetail?, detail))
  }

  /** `evaluate_health_body`. */
  method EvaluateHealthBody(payload: Json, parsed: Option<Json>, statusOk: bool)
    returns (r: Result<(bool, Detail), AssertionError>)
    ensures r == Verdict(payload, parsed, statusOk)
  {
    hide PathGet, PerLogicalOk;
    var bodyOk, detail := true, NoDetail;
    if IsTrue(Field(payload, "require_mode_remote")) {
      if parsed.Some? {
        var mode := StringField(parsed.value, "mode");
        if mode == Some("embedded_aliased_as_tikv") {
          bodyOk, detail := false, EmbeddedMode;
        } else if statusOk && mode != Some("remote") {
          bodyOk, detail := false, WrongMode(mode);
        }
      } else if statusOk {
        bodyOk, detail := false, ModeNotJson;
      }
    }
    assert detail == ModeDetail(payload, parsed, statusOk) && bodyOk == detail.NoDetail?;
    if !statusOk { return Ok((bodyOk, detail)); }
    if IsTrue(Field(payload, "require_all_per_logical_state_ok")) {
      if parsed.Some? {
        var all := PerLogicalAllStateOk(parsed.value);
        if !all {
          bodyOk, detail := false, PerLogicalNotOk;
        }
      } else {
        bodyOk, detail := false, PerLogicalNotJson;
      }
    }
    ghost var before := Later(ModeDetail(payload, parsed, statusOk), PerLogicalDetail(payload, parsed));
    assert detail == before && bodyOk == detail.NoDetail?;
    var entries := AssertionEntries(payload);
    if entries.Some? {
      if parsed.Some? {
        var checked := CheckAssertions(parsed.value, entries.value);
        if checked.Err? { return Err(checked.error); }
        if !checked.value.NoDetail? {
          bodyOk, detail := false, checked.value;
        }
      } else {
        bodyOk, detail := false, AssertionsNotJson;
      }
    }
    return Ok((bodyOk, detail));
  }

  /** The loop over the assertions of `evaluate_health_body`: stops at the first that is malformed or fails. */
  method CheckAssertions(root: Json, entries: seq<Json>) returns (r: Result<Detail, AssertionError>)
    ensures r == AssertionsVerdict(root, entries)
  {
    hide PathGet;
    for i := 0 to |entries|
      invariant AssertionsVerdict(root, entries) == AssertionsVerdict(root, entries[i..])
    {
      assert entries[i..][1..] == entries[i + 1..] && entries[i..][0] == entries[i];
      var a := entries[i];
      var path := StringField(a, "path");
      if path.None? { return Err(MissingPath); }
      var expected := Field(a, "equals");
      if expected.None? { return Err(MissingEquals); }
      var got := JsonPathGet(root, path.value);
      if got != Some(expected.value) {
        return Ok(AssertionFailed(path.value, expected.value, got));
      }
    }
    return Ok(NoDetail);
  }

  // ---- What the verdict means

  /** Every entry of the body's `per_logical` object says that its state is `ok`. */
  ghost predicate AllStatesOk(body: Json) {
    && body.Obj? && "per_logical" in body.fields && body.fields["per_logical"].Obj?
    && var entries := body.fields["per_logical"].fields;
    forall k :: k in entries ==>
      entries[k].Obj? && "state" in entries[k].fields && entries[k].fields["state"] == Str("ok")
  }

  /** An assertion that the value its path names is there and equals the expected one. */
  ghost predicate Asserts(body: Json, a: Json) {
    && a.Obj? && "path" in a.fields && a.fields["path"].Str? && "equals" in a.fields
    && PathGet(body, a.fields["path"].s) == Some(a.fields["equals"])
  }

  /** An assertion without a path or an expected value. */
  ghost predicate Malformed(a: Json) {
    !(a.Obj? && "path" in a.fields && a.fields["path"].Str? && "equals" in a.fields)
  }

  /** What is said of an assertion that does not hold. */
  function Rejection(body: Json, a: Json): Result<Detail, AssertionError> {
    if !(a.Obj? && "path" in a.fields && a.fields["path"].Str?) then Err(MissingPath)
    else if "equals" !in a.fields then Err(MissingEquals)
    else Ok(AssertionFailed(a.fields["path"].s, a.fields["equals"], PathGet(body, a.fields["path"].s)))
  }

  lemma AssertsExactly(body: Json, a: Json)
    ensures Holds(body, a) <==> Asserts(body, a)
    ensures AssertionVerdict(body, a).Err? <==> Malformed(a)
    ensures !Asserts(body, a) ==> AssertionVerdict(body, a) == Rejection(body, a)
  {
    hide PathGet;
  }

  lemma StatesExactly(body: Json)
    ensures PerLogicalOk(body) <==> AllStatesOk(body)
  {
  }

  /** What a payload asks of a body, check by check. */
  ghost predicate Healthy(payload: Json, parsed: Option<Json>) {
    && (IsTrue(Field(payload, "require_mode_remote")) ==>
          parsed.Some? && Field(parsed.value, "mode") == Some(Str("remote")))
    && (IsTrue(Field(payload, "require_all_per_logical_state_ok")) ==> parsed.Some? && AllStatesOk(parsed.value))
    && forall entries :: Field(payload, "body_json_assertions") == Some(Arr(entries)) ==>
         parsed.Some? && forall a :: a in entries ==> Asserts(parsed.value, a)
  }

  /** The first entry that does not hold is malformed. */
  ghost predicate FirstBadMalformed(root: Json, entries: seq<Json>, i: nat) {
    i < |entries| && Malformed(entries[i]) && forall j :: 0 <= j < i ==> Asserts(root, entries[j])
  }

  lemma {:induction false} AllAssertMeaning(root: Json, entries: seq<Json>)
    ensures AssertionsVerdict(root, entries) == Ok(NoDetail) <==>
            forall i :: 0 <= i < |entries| ==> Asserts(root, entries[i])
  {
    hide AssertionVerdict, Asserts, Malformed;
    if entries != [] {
      var rest := entries[1..];
      AllAssertMeaning(root, rest);
      AssertsExactly(root, entries[0]);
      assert forall j :: 0 <= j < |rest| ==> rest[j] == entries[j + 1];
    }
  }

  lemma FirstBadShift(root: Json, entries: seq<Json>, i: nat)
    requires entries != [] && Asserts(root, entries[0])
    ensures FirstBadMalformed(root, entries, i + 1) <==> FirstBadMalformed(root, entries[1..], i)
    ensures !FirstBadMalformed(root, entries, 0)
  {
    assert !Malformed(entries[0]);
    hide Asserts, Malformed;
    var rest := entries[1..];
    assert forall j :: 0 <= j < |rest| ==> rest[j] == entries[j + 1];
    if FirstBadMalformed(root, rest, i) {
      assert forall j :: 0 < j < i + 1 ==> entries[j] == rest[j - 1];
    }
  }

  lemma {:induction false} MalformedMeaning(root: Json, entries: seq<Json>)
    ensures AssertionsVerdict(root, entries).Err? <==> exists i: nat :: FirstBadMalformed(root, entries, i)
  {
    hide AssertionVerdict, Asserts, Malformed;
    if entries != [] {
      var rest := entries[1..];
      AssertsExactly(root, entries[0]);
      if Asserts(root, entries[0]) {
        MalformedMeaning(root, rest);
        hide FirstBadMalformed;
        if exists i: nat :: FirstBadMalformed(root, rest, i) {
          var i: nat :| FirstBadMalformed(root, rest, i);
          FirstBadShift(root, entries, i);
        }
        if exists i: nat :: FirstBadMalformed(root, entries, i) {
          var i: nat :| FirstBadMalformed(root, entries, i);
          FirstBadShift(root, entries, if i > 0 then i - 1 else 0);
        }
      } else {
        if Malformed(entries[0]) {
          assert FirstBadMalformed(root, entries, 0);
        }
        assert forall i: nat :: FirstBadMalformed(root, entries, i) ==> i == 0;
      }
    }
  }

  lemma AssertionsMeaning(root: Json, entries: seq<Json>)
    ensures AssertionsVerdict(root, entries) == Ok(NoDetail) <==>
            forall i :: 0 <= i < |entries| ==> Asserts(root, entries[i])
    ensures AssertionsVerdict(root, entries).Err? <==> exists i: nat :: FirstBadMalformed(root, entries, i)
  {
    hide Asserts, AssertionsVerdict, FirstBadMalformed;
    AllAssertMeaning(root, entries);
    MalformedMeaning(root, entries);
  }

  /** The first assertion that does not hold settles the verdict on all of them. */
  lemma {:induction false} FirstRejectionStays(root: Json, entries: seq<Json>, i: nat)
    requires i < |entries| && !Asserts(root, entries[i]) && forall j :: 0 <= j < i ==> Asserts(root, entries[j])
    ensures AssertionsVerdict(root, entries) == Rejection(root, entries[i])
  {
    hide AssertionVerdict, Asserts, Rejection, Malformed;
    AssertsExactly(root, entries[0]);
    if i > 0 {
      var rest := entries[1..];
      assert rest[i - 1] == entries[i] && forall j :: 0 <= j < i - 1 ==> rest[j] == entries[j + 1];
      FirstRejectionStays(root, rest, i - 1);
    }
  }

  /** With an ok status the body passes if and only if it is healthy. */
  lemma PassesExactly(payload: Json, parsed: Option<Json>)
    ensures Verdict(payload, parsed, true) == Ok((true, NoDetail)) <==> Healthy(payload, parsed)
  {
    hide AssertionVerdict, PerLogicalOk, Asserts, AllStatesOk;
    if parsed.Some? {
      StatesExactly(parsed.value);
      if AssertionEntries(payload).Some? {
        AssertionsMeaning(parsed.value, AssertionEntries(payload).value);
      }
    }
    hide AssertionsVerdict;
  }

  /** It is an error, instead, if and only if the first entry that does not hold is malformed. */
  lemma ErrsExactly(payload: Json, parsed: Option<Json>, statusOk: bool)
    ensures Verdict(payload, parsed, statusOk).Err? <==>
            && statusOk && parsed.Some? && AssertionEntries(payload).Some?
            && exists i: nat :: FirstBadMalformed(parsed.value, AssertionEntries(payload).value, i)
  {
    hide AssertionVerdict, PerLogicalOk, Holds, FirstBadMalformed;
    if AssertionEntries(payload).Some? && parsed.Some? {
      AssertionsMeaning(parsed.value, AssertionEntries(payload).value);
    }
    hide AssertionsVerdict;
  }

  /** The mode check of an ok answer. */
  function ModeReport(body: Option<Json>): Detail {
    if body.None? then ModeNotJson
    else if Field(body.value, "mode") == Some(Str("remote")) then NoDetail
    else if Field(body.value, "mode") == Some(Str("embedded_aliased_as_tikv")) then EmbeddedMode
    else
      match Field(body.value, "mode")
      case Some(Str(mode)) => WrongMode(Some(mode))
      case _ => WrongMode(None)
  }

  lemma ReportedAssertion(root: Json, entries: seq<Json>)
    requires AssertionsVerdict(root, entries).Ok?
    ensures AssertionsVerdict(root, entries).value == NoDetail <==> forall a :: a in entries ==> Asserts(root, a)
    ensures var detail := AssertionsVerdict(root, entries).value; detail.NoDetail? || detail.AssertionFailed?
  {
    hide Asserts, AssertionVerdict;
    AllAssertMeaning(root, entries);
    OnlyAssertionDetails(root, entries);
  }

  lemma {:induction false} OnlyAssertionDetails(root: Json, entries: seq<Json>)
    ensures var v := AssertionsVerdict(root, entries); v.Ok? ==> v.value.NoDetail? || v.value.AssertionFailed?
  {
    hide PathGet;
    if entries != [] {
      OnlyAssertionDetails(root, entries[1..]);
    }
  }

  /** Of several checks that an ok answer fails, the last one is reported: assertions, then states, then the mode. */
  lemma LastFailureReported(payload: Json, parsed: Option<Json>)
    requires Verdict(payload, parsed, true).Ok?
    ensures var (ok, detail) := Verdict(payload, parsed, true).value; var entries := AssertionEntries(payload);
            && (ok <==> detail.NoDetail?)
            && if entries.Some? && parsed.None? then detail == AssertionsNotJson
               else if entries.Some? && exists a :: a in entries.value && !Asserts(parsed.value, a)
               then Ok(detail) == AssertionsVerdict(parsed.value, entries.value) && detail.AssertionFailed?
               else if IsTrue(Field(payload, "require_all_per_logical_state_ok")) && parsed.None?
               then detail == PerLogicalNotJson
               else if IsTrue(Field(payload, "require_all_per_logical_state_ok")) && !AllStatesOk(parsed.value)
               then detail == PerLogicalNotOk
               else detail == if IsTrue(Field(payload, "require_mode_remote")) then ModeReport(parsed) else NoDetail
  {
    hide Asserts, Rejection, AllStatesOk, PerLogicalOk;
    if parsed.Some? {
      StatesExactly(parsed.value);
      if AssertionEntries(payload).Some? {
        ReportedAssertion(parsed.value, AssertionEntries(payload).value);
      }
    }
    hide AssertionsVerdict;
  }

  /** With a failing status only the embedded mode is held against the body, and nothing is an error. */
  lemma FailingStatus(payload: Json, parsed: Option<Json>)
    ensures Verdict(payload, parsed, false) ==
            if IsTrue(Field(payload, "require_mode_remote")) && parsed.Some?
               && Field(parsed.value, "mode") == Some(Str("embedded_aliased_as_tikv"))
            then Ok((false, EmbeddedMode)) else Ok((true, NoDetail))
  {
  }
}
