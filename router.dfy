/** The service entitlement of a phone number, decided by its last four characters. */
module Router {
  import opened Strings
  import opened Constants

  /** `get_services_for_phone`: `6247` gets both services, `1111` only GRN, any other phone only claims. */
  function ServicesForPhone(phone: string): (r: seq<Service>)
    ensures r != []
    ensures |r| == 2 ==> r[0] != r[1]
    ensures |r| <= 2
    ensures EndsWith(phone, "6247") ==> r == [Claim, Grn]
  {
    if EndsWith(phone, "6247") then [Claim, Grn]
    else if EndsWith(phone, "1111") then [Grn]
    else [Claim]
  }

  /** The last four characters of a phone, or the whole phone when it is shorter. */
  function LastFour(phone: string): string {
    if |phone| >= 4 then phone[|phone| - 4..] else phone
  }

  /** Two phones with the same last four characters get the same services. */
  lemma ServicesDependOnLastFour(p: string, q: string)
    requires LastFour(p) == LastFour(q)
    ensures ServicesForPhone(p) == ServicesForPhone(q)
  {
  }

  /** A phone shorter than four characters matches no rule and gets claims only. */
  lemma ShortPhoneGetsClaim(phone: string)
    requires |phone| < 4
    ensures ServicesForPhone(phone) == [Claim]
  {
  }

  /** GRN is offered exactly to phones ending in `6247` or `1111`. */
  lemma GrnEntitlement(phone: string)
    ensures Grn in ServicesForPhone(phone) <==> EndsWith(phone, "6247") || EndsWith(phone, "1111")
  {
  }

  /** Claims are offered exactly to phones not ending in `1111`. */
  lemma ClaimEntitlement(phone: string)
    ensures Claim in ServicesForPhone(phone) <==> !EndsWith(phone, "1111")
  {
  }
}
