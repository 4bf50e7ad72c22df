/**
  The state flags the indexers add to every rule document, so that dashboards can
  aggregate on them: each flag is 1 exactly when the rule's state is the one it marks.
 */
module StateFlags {
  import opened Wrappers
  import opened Values

  /** The flags recomputed on every update. */
  const ProgressFlags: set<string> := {"is_done", "is_replicating", "is_stuck"}

  /** The flags set when a rule document is first pushed. */
  const PushFlags: set<string> := ProgressFlags + {"is_upload_failed", "is_upload_successful"}

  /** The rule state a flag marks. */
  function Marks(flag: string): string
  {
    if flag == "is_done" then "OK"
    else if flag == "is_replicating" then "REPLICATING"
    else if flag == "is_stuck" then "STUCK"
    else if flag == "is_upload_failed" then "UPLOAD-FAILED"
    else if flag == "is_upload_successful" then "UPLOAD-SUCCESSFUL"
    else ""
  }

  /** `1 if state == mark else 0`, where `state` is `d.get('state')`. */
  function Flag(state: Option<Value>, flag: string): Value
  {
    Int(if state == Some(Str(Marks(flag))) then 1 else 0)
  }

  /** The three progress flags for `state`. */
  function Progress(state: Option<Value>): (r: Doc)
    ensures r.Keys == ProgressFlags
    ensures forall k :: k in r ==> (r[k] == Int(1) <==> state == Some(Str(Marks(k))))
    ensures forall k :: k in r ==> r[k] == Int(0) || r[k] == Int(1)
  {
    map["is_done" := Flag(state, "is_done"),
        "is_replicating" := Flag(state, "is_replicating"),
        "is_stuck" := Flag(state, "is_stuck")]
  }

  /** The five flags of a pushed document for `state`. */
  function Pushed(state: Option<Value>): (r: Doc)
    ensures r.Keys == PushFlags
    ensures forall k :: k in r ==> (r[k] == Int(1) <==> state == Some(Str(Marks(k))))
    ensures forall k :: k in r ==> r[k] == Int(0) || r[k] == Int(1)
  {
    Progress(state)["is_upload_failed" := Flag(state, "is_upload_failed")]
      ["is_upload_successful" := Flag(state, "is_upload_successful")]
  }

  /** The flags never hold a rule id. */
  lemma PushedLacksRuleId(state: Option<Value>)
    ensures "rule_id" !in Pushed(state)
  {
    assert "rule_id" !in ProgressFlags;
  }

  /** Distinct flags mark distinct states, so at most one flag is ever 1. */
  lemma AtMostOneFlag(state: Option<Value>, a: string, b: string)
    requires a in PushFlags && b in PushFlags
    requires Pushed(state)[a] == Int(1) && Pushed(state)[b] == Int(1)
    ensures a == b
  {
    assert Marks(a) == Marks(b);
  }

  /** Without a state (or with one no flag marks), every flag is 0. */
  lemma NoStateNoFlag(state: Option<Value>)
    requires state.None? || !state.value.Str? || state.value.s !in {"OK", "REPLICATING", "STUCK", "UPLOAD-FAILED", "UPLOAD-SUCCESSFUL"}
    ensures forall k :: k in PushFlags ==> Pushed(state)[k] == Int(0)
  {
  }
}
