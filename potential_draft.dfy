// frontend/components/tools/pinterestPotential/usePinterestPotentialDraft.ts:
// the wizard's draft (step, answers, lead fields) kept in component state and
// mirrored to session storage under one key. On mount a stored draft of the
// right shape is merged over the initial one; a bad or unreadable one is dropped.
module PotentialDraft {
  import opened Results
  import opened Json

  /** The session-storage key the draft lives under. */
  const DraftStorageKey := "pinterestPotential:draft:v1"

  /** isObject: `typeof v === "object" && v !== null`, so null is refused and arrays pass. */
  lemma IsObjectSpec(v: Option<Json>)
    ensures IsObjectLike(v) <==> v.Some? && (v.value.JObj? || v.value.JArr?)
    ensures !IsObjectLike(Some(JNull)) && !IsObjectLike(None)
  {
  }

  /** `typeof stepIndex === "number" && stepIndex >= 0 && stepIndex < 11`. */
  predicate StepOk(v: Option<Json>)
  {
    v.Some? && v.value.JNum? && 0.0 <= v.value.n < 11.0
  }

  /** isDraftShape: an object whose stepIndex is in [0, 11), answers an object, leadDraft absent or an object. */
  predicate IsDraftShape(v: Option<Json>)
  {
    IsObjectLike(v)
    && StepOk(Get(v, "stepIndex"))
    && IsObjectLike(Get(v, "answers"))
    && (Get(v, "leadDraft").None? || IsObjectLike(Get(v, "leadDraft")))
  }

  /**
   * The shape test in terms of the parsed value's own fields. An array never
   * passes (it has no stepIndex property), so a passing value is an object
   * whose fields can be spread.
   */
  lemma DraftShapeSpec(v: Option<Json>)
    ensures IsDraftShape(v) <==>
      v.Some? && v.value.JObj?
      && "stepIndex" in v.value.fields && v.value.fields["stepIndex"].JNum?
      && 0.0 <= v.value.fields["stepIndex"].n < 11.0
      && "answers" in v.value.fields
      && (v.value.fields["answers"].JObj? || v.value.fields["answers"].JArr?)
      && ("leadDraft" in v.value.fields ==> v.value.fields["leadDraft"].JObj? || v.value.fields["leadDraft"].JArr?)
    ensures forall items :: !IsDraftShape(Some(JArr(items)))
  {
  }

  /** `{ ...prev, ...patch }`: every patched key takes the patch's value, every other key keeps its own. */
  function Merge(prev: map<string, Json>, patch: map<string, Json>): (r: map<string, Json>)
    ensures r.Keys == prev.Keys + patch.Keys
    ensures forall k | k in patch :: r[k] == patch[k]
    ensures forall k | k in prev && k !in patch :: r[k] == prev[k]
  {
    prev + patch
  }

  /** Merging is idempotent: spreading the same patch twice is spreading it once. */
  lemma MergeIdempotent(prev: map<string, Json>, patch: map<string, Json>)
    ensures Merge(Merge(prev, patch), patch) == Merge(prev, patch)
  {
  }

  /**
   * The hook's state: the in-memory draft, the session-storage slot for
   * DraftStorageKey (None when nothing is stored), and the ref that makes the
   * load run once.
   */
  class DraftHook {
    var draft: map<string, Json>
    var stored: Option<string>
    var loaded: bool

    constructor(initial: map<string, Json>, storage: Option<string>)
      ensures draft == initial && stored == storage && !loaded
    {
      draft := initial;
      stored := storage;
      loaded := false;
    }

    /**
     * The load effect. `parse` is JSON.parse, None when it throws. An absent or
     * empty stored string changes nothing; one that parses to a draft shape is
     * merged over the draft; anything else is removed from storage and the
     * draft kept. A second call does nothing.
     */
    method Load(parse: string -> Option<Json>)
      modifies this
      ensures loaded
      ensures old(loaded) ==> draft == old(draft) && stored == old(stored)
      ensures !old(loaded) && (old(stored).None? || old(stored).value == "") ==>
        draft == old(draft) && stored == old(stored)
      ensures !old(loaded) && old(stored).Some? && old(stored).value != "" && IsDraftShape(parse(old(stored).value)) ==>
        draft == Merge(old(draft), parse(old(stored).value).value.fields) && stored == old(stored)
      ensures !old(loaded) && old(stored).Some? && old(stored).value != "" && !IsDraftShape(parse(old(stored).value)) ==>
        draft == old(draft) && stored == None
    {
      if loaded {
        return;
      }
      loaded := true;
      var raw := stored;
      if raw.None? || raw.value == "" {
        return;
      }
      var parsed := parse(raw.value);
      if parsed.None? {
        stored := None;
      } else if IsDraftShape(parsed) {
        DraftShapeSpec(parsed);
        draft := Merge(draft, parsed.value.fields);
      } else {
        stored := None;
      }
    }

    /** The persist effect: the draft, serialised by `stringify`, is written to storage. */
    method Persist(stringify: map<string, Json> -> string)
      modifies this
      ensures stored == Some(stringify(draft))
      ensures draft == old(draft) && loaded == old(loaded)
    {
      stored := Some(stringify(draft));
    }

    /**
     * Mounting: the load effect, then the persist effect. Whatever the load
     * found, storage ends up holding the draft the hook now shows; a bad stored
     * draft is thus replaced by the initial one.
     */
    method Mount(parse: string -> Option<Json>, stringify: map<string, Json> -> string)
      modifies this
      ensures loaded
      ensures stored == Some(stringify(draft))
      ensures !old(loaded) && old(stored).Some? && old(stored).value != "" && IsDraftShape(parse(old(stored).value)) ==>
        draft == Merge(old(draft), parse(old(stored).value).value.fields)
      ensures old(loaded) || old(stored).None? || old(stored).value == "" || !IsDraftShape(parse(old(stored).value)) ==>
        draft == old(draft)
    {
      Load(parse);
      Persist(stringify);
    }

    /** updateDraft: the patch is spread over the draft, and the new draft is persisted. */
    method UpdateDraft(patch: map<string, Json>, stringify: map<string, Json> -> string)
      modifies this
      ensures draft == Merge(old(draft), patch)
      ensures stored == Some(stringify(draft))
      ensures loaded == old(loaded)
    {
      draft := Merge(draft, patch);
      Persist(stringify);
    }

    /** clearDraft: only the stored copy goes; the in-memory draft stays. */
    method ClearDraft()
      modifies this
      ensures stored == None
      ensures draft == old(draft) && loaded == old(loaded)
    {
      stored := None;
    }
  }
}
