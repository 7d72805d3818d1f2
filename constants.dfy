/**
 * The enumerations shared by the handler and the router: the two services, the seven
 * conversation states (stored in Redis under their names) and the session TTL.
 */
module Constants {
  import opened Wrappers

  /** The services a phone may be entitled to. */
  datatype Service = Claim | Grn

  function ServiceName(s: Service): string {
    match s
    case Claim => "CLAIM"
    case Grn => "GRN"
  }

  /** The two service names are different strings. */
  lemma ServiceNamesDistinct()
    ensures ServiceName(Claim) != ServiceName(Grn)
  {
    assert ServiceName(Claim)[0] != ServiceName(Grn)[0];
  }

  /** Where a user stands in the conversation. */
  datatype State =
    | WaitingForService
    | WaitingForEntity
    | WaitingForImageCount
    | WaitingForImages
    | WaitingForClaimChoice
    | WaitingForAddAnother
    | WaitingForGrnUpload

  /** The string a state is stored as under the `state` key. */
  function StateName(s: State): string {
    match s
    case WaitingForService => "WAITING_FOR_SERVICE"
    case WaitingForEntity => "WAITING_FOR_ENTITY"
    case WaitingForImageCount => "WAITING_FOR_IMAGE_COUNT"
    case WaitingForImages => "WAITING_FOR_IMAGES"
    case WaitingForClaimChoice => "WAITING_FOR_CLAIM_CHOICE"
    case WaitingForAddAnother => "WAITING_FOR_ADD_ANOTHER"
    case WaitingForGrnUpload => "WAITING_FOR_GRN_UPLOAD"
  }

  /**
   * The state a stored string names, if any: the handler compares the stored value
   * with each state name in turn, so any other string matches no state.
   */
  function ParseState(name: string): (r: Option<State>)
    ensures r.Some? ==> StateName(r.value) == name
    ensures r.None? ==> forall s: State :: StateName(s) != name
  {
    if name == StateName(WaitingForService) then Some(WaitingForService)
    else if name == StateName(WaitingForEntity) then Some(WaitingForEntity)
    else if name == StateName(WaitingForImageCount) then Some(WaitingForImageCount)
    else if name == StateName(WaitingForImages) then Some(WaitingForImages)
    else if name == StateName(WaitingForClaimChoice) then Some(WaitingForClaimChoice)
    else if name == StateName(WaitingForAddAnother) then Some(WaitingForAddAnother)
    else if name == StateName(WaitingForGrnUpload) then Some(WaitingForGrnUpload)
    else None
  }

  /** The seven state names are pairwise distinct, so a stored name identifies its state. */
  lemma StateNamesDistinct(a: State, b: State)
    ensures StateName(a) == StateName(b) ==> a == b
  {
    if StateName(a) == StateName(b) {
      assert ParseState(StateName(a)) == ParseState(StateName(b));
      StateRoundTrip(a);
      StateRoundTrip(b);
    }
  }

  /** Reading back a stored state gives the state. */
  lemma StateRoundTrip(s: State)
    ensures ParseState(StateName(s)) == Some(s)
  {
    match s
    case WaitingForService =>
    case WaitingForEntity =>
      assert StateName(WaitingForEntity) != StateName(WaitingForService) by {
        assert |StateName(WaitingForEntity)| != |StateName(WaitingForService)|;
      }
    case _ =>
  }

  /** The expiry, in seconds, that every `setex` of the handler gives a session key. */
  const ChatTtl: nat := 900
}
