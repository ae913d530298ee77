// frontend/lib/tools/pinterestPotential/leadGatingConfig.ts: the newer lead
// gating surface (hard or soft lock for new leads, skip for known ones) and
// the resolution of the mode for one request.
module LeadGating {
  import opened Results

  datatype GatingMode = HardLock | SoftLock
  {
    function Name(): string
    {
      match this
      case HardLock => "hard_lock"
      case SoftLock => "soft_lock"
    }
  }

  datatype LeadState = Known | New

  /** The `lead_gating` block of the configuration. */
  datatype LeadGatingConfig = LeadGatingConfig(
    defaultMode: GatingMode,
    modes: seq<GatingMode>,
    knownLeadBehavior: string,
    emailOptionalInSoftLock: bool,
    emailRequired: bool,
    nameRequired: bool)

  /** LEAD_GATING_CONFIG. */
  const Config := LeadGatingConfig(HardLock, [HardLock, SoftLock], "skip", true, true, false)

  /** The inner `normalize`: only the exact strings name a mode. */
  function NormalizeGating(v: Option<string>): (m: Option<GatingMode>)
    ensures m.Some? <==> v.Some? && (v.value == "hard_lock" || v.value == "soft_lock")
    ensures m.Some? ==> m.value.Name() == v.value
  {
    if v.None? || v.value == "" then None
    else if v.value == "hard_lock" then Some(HardLock)
    else if v.value == "soft_lock" then Some(SoftLock)
    else None
  }

  /**
   * resolveLeadGating: the requested mode if allowed, then the cookie's if
   * allowed, then the default; the mode is always an allowed one, and the
   * state is "known" exactly for a known lead.
   */
  function ResolveLeadGating(requestedMode: Option<string>, cookieMode: Option<string>, isKnownLead: bool): (r: (GatingMode, LeadState))
    ensures r.0 in Config.modes
    ensures r.1 == Known <==> isKnownLead
  {
    var state := if isKnownLead then Known else New;
    var requested := NormalizeGating(requestedMode);
    var cookie := NormalizeGating(cookieMode);
    var mode :=
      if requested.Some? && requested.value in Config.modes then requested.value
      else if cookie.Some? && cookie.value in Config.modes then cookie.value
      else Config.defaultMode;
    (mode, state)
  }

  /** The mode does not depend on who the visitor is. */
  lemma ModeIndependentOfLead(requestedMode: Option<string>, cookieMode: Option<string>)
    ensures ResolveLeadGating(requestedMode, cookieMode, true).0 == ResolveLeadGating(requestedMode, cookieMode, false).0
  {
  }

  /** Request over cookie over the default "hard_lock". */
  lemma GatingPrecedence(requestedMode: Option<string>, cookieMode: Option<string>, isKnownLead: bool)
    ensures NormalizeGating(requestedMode).Some? ==>
      ResolveLeadGating(requestedMode, cookieMode, isKnownLead).0.Name() == requestedMode.value
    ensures NormalizeGating(requestedMode).None? && NormalizeGating(cookieMode).Some? ==>
      ResolveLeadGating(requestedMode, cookieMode, isKnownLead).0.Name() == cookieMode.value
    ensures NormalizeGating(requestedMode).None? && NormalizeGating(cookieMode).None? ==>
      ResolveLeadGating(requestedMode, cookieMode, isKnownLead).0 == HardLock
  {
  }

  /** Matching is exact: a different case or surrounding space is not recognised. */
  lemma ExactStringsOnly()
    ensures ResolveLeadGating(Some("Soft_Lock"), None, false).0 == HardLock
    ensures ResolveLeadGating(Some(" soft_lock"), None, false).0 == HardLock
    ensures ResolveLeadGating(Some("soft_lock"), None, false).0 == SoftLock
  {
  }
}
