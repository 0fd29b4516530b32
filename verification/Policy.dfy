/** The decision vocabulary shared by the scoring engine, the tenant's dials and the decision store. */
module Policy {

  datatype Decision = ALLOW | STEP_UP | HOLD

  datatype Code =
    | ACTIVE_CALL | CALL_HANDS_FREE | RECENT_CALL | STEP_UP_FAILED | STEP_UP_ABANDONED
    | NEW_PAYEE | RUSHED_NEW_PAYEE | ESCALATING_PAYEE | KNOWN_MULE_PAYEE | PAYEE_UNDER_INVESTIGATION
    | GAMBLING_PAYEE | CRYPTO_P2P_PAYEE | INFORMAL_FX_PAYEE | AMOUNT_ABOVE_PROFILE | HIGH_AMOUNT
    | TXN_VELOCITY | HESITATION | PASTE_INPUT | NO_USER_BOUND | NEW_DEVICE_FOR_USER | SIM_CHANGED
    | NEW_INSTALL | DEVICE_INTEGRITY | EMULATOR | ACCESSIBILITY_SERVICES | DEBUG_BUILD | DEV_OPTIONS
    | SIDELOADED_APP | ATTESTATION_FAILED | ATTESTATION_MISSING | VPN_ACTIVE | PROXY_CONFIGURED
    | MITM_CA_INSTALLED | CLONE_CONTAINER | SCREENSHOT | TOUCH_ANOMALY | REMOTE_ACCESS | HEADLESS_BROWSER
    | MOUSE_ANOMALY | KEYSTROKE_ANOMALY | MOCK_LOCATION | IMPOSSIBLE_TRAVEL | GEO_UNUSUAL
    | RAPID_IN_OUT | FAN_OUT_24H | DORMANT_REACTIVATED | RAPID_TO_TXN

  datatype Signal = Signal(code: Code, weight: int)

  datatype Bands = Bands(stepUpAt: int, holdAt: int)

  function Decide(score: int, bands: Bands): Decision {
    if score >= bands.holdAt then HOLD else if score >= bands.stepUpAt then STEP_UP else ALLOW
  }

  const APP_SCAM := "APP Scam"

  /** How the bank should act on a decision; empty when there is nothing to do. */
  function InterventionFor(decision: Decision, threat: string): string {
    match decision
    case STEP_UP => if threat == APP_SCAM then "SCAM_WARNING" else "IDENTITY"
    case HOLD => "ANALYST_REVIEW"
    case ALLOW => ""
  }
}
