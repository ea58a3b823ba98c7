/**
 * The onboarding email that carries the plaintext API key.  The HTML markup
 * is not modelled; what is kept is who it goes to, the key it carries, and
 * the tier-dependent copy it shows.
 */
module OnboardingEmail {

  const ProTier: string := "pro"
  /** The tier used whenever none is recorded. */
  const DefaultTier: string := ProTier

  const Sender: string := "ZodForge Cloud <onboarding@resend.dev>"

  const ProQuota: string := "5,000"
  const OtherQuota: string := "Unlimited"
  const ProSupport: string := "Priority support"
  const OtherSupport: string := "Dedicated support + custom integrations"

  /** The parts of the message that depend on the recipient, the key and the tier. */
  datatype Email = Email(
    from: string,
    to: string,
    tier: string,
    apiKey: string,
    monthlyRequests: string,
    support: string)

  /**
   * How a send call ends: it returns (`Delivered`) or throws (`SendFailed`).
   * The value a returning call yields is not consulted.
   */
  datatype SendResult = Delivered | SendFailed(message: string)

  /** The "requests per month" figure of the template. */
  function QuotaCopy(tier: string): string {
    if tier == ProTier then ProQuota else OtherQuota
  }

  /** The support line of the template. */
  function SupportCopy(tier: string): string {
    if tier == ProTier then ProSupport else OtherSupport
  }

  /** The message `sendApiKeyEmail(email, apiKey, tier)` hands to the provider. */
  function ComposeApiKeyEmail(to: string, apiKey: string, tier: string): (e: Email)
    ensures e.from == Sender && e.to == to && e.apiKey == apiKey && e.tier == tier
  {
    Email(Sender, to, tier, apiKey, QuotaCopy(tier), SupportCopy(tier))
  }

  /**
   * The copy is the pro copy ("5,000" requests, priority support) exactly
   * when the tier is "pro", and the unlimited, dedicated-support copy for
   * every other tier.
   */
  lemma TierCopy(to: string, apiKey: string, tier: string)
    ensures ComposeApiKeyEmail(to, apiKey, tier).monthlyRequests == ProQuota <==> tier == ProTier
    ensures ComposeApiKeyEmail(to, apiKey, tier).support == ProSupport <==> tier == ProTier
    ensures tier != ProTier ==>
      ComposeApiKeyEmail(to, apiKey, tier).monthlyRequests == OtherQuota &&
      ComposeApiKeyEmail(to, apiKey, tier).support == OtherSupport
  {
    assert ProQuota != OtherQuota by { assert ProQuota[0] != OtherQuota[0]; }
    assert ProSupport != OtherSupport by { assert ProSupport[0] != OtherSupport[0]; }
  }
}
