/** Which provider a job is sent through. */
module Routing {
  import opened Models
  import opened Text

  /** `MailRouter.Route`, with the org domain lower-cased once at construction. */
  function Route(orgDomainLower: string, from: string): Backend
  {
    if HasSuffix(ToLower(from), orgDomainLower) then Graph else SendGrid
  }

  /** The worker's choice: a sender config forces Graph, everything else goes through the router. */
  function WorkerBackend(cfg: Config, content: MailContent): Backend
  {
    if content.senderConfigId.Some? && cfg.senderConfigService then Graph
    else Route(ToLower(cfg.orgEmailDomain), content.from)
  }

  /** What the three producers guarantee of a job: a sender config only for an org sender. */
  predicate Submittable(cfg: Config, content: MailContent)
  {
    content.senderConfigId.Some? ==> IsOrgSender(cfg, content.from)
  }

  /** For every producible job the backend depends on the sender address alone. */
  lemma BackendBySender(cfg: Config, content: MailContent)
    requires Submittable(cfg, content)
    ensures WorkerBackend(cfg, content).Graph? <==> IsOrgSender(cfg, content.from)
  {
  }

  /** An org sender is anything followed by the org domain, in any capitalisation. */
  lemma OrgSenderIs(cfg: Config, from: string)
    ensures IsOrgSender(cfg, from) <==> exists p, d :: Concat(from, p, d) && ToLower(d) == ToLower(cfg.orgEmailDomain)
  {
    InDomainIs(from, cfg.orgEmailDomain);
  }
}
