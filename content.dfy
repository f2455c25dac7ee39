/** The content script (ChickenShield/content.js): a one-shot website scan at
    load, and on webmail a watcher that re-reads the open message whenever the
    address changes. The DOM is given as values: the page's location, title
    and visible text, and the three mail regions as optional elements. */
module ContentScript {
  import opened Wrappers
  import opened Text
  import opened Reports

  /** Website text is cut to this many characters before it is sent. */
  const WebsiteTextCap: nat := 15000
  const GmailHost: string := "mail.google.com"
  const UnknownSender: string := "Unknown"

  /** The page as the script sees it. */
  datatype Page = Page(hostname: string, href: string, title: string, bodyText: string)

  /** `hostname.includes("mail.google.com")`. */
  predicate IsGmailHost(hostname: string) {
    Contains(hostname, GmailHost)
  }

  /** `getTextContent`: the first 15000 characters of the page text. */
  function GetTextContent(bodyText: string): (t: string)
    ensures t <= bodyText
    ensures |t| == Min(|bodyText|, WebsiteTextCap)
  {
    Prefix(bodyText, WebsiteTextCap)
  }

  /** `scanWebsite`: nothing on a webmail host, otherwise exactly one website
      description whose body is the truncated page text. */
  function ScanWebsite(page: Page): (msg: Option<ContentDescription>)
    ensures msg.None? <==> IsGmailHost(page.hostname)
    ensures msg.Some? ==>
      msg.value.kind == Website && msg.value.kind.Name() == "website" && msg.value.source == page.href &&
      msg.value.title == page.title && msg.value.content <= page.bodyText &&
      |msg.value.content| == Min(|page.bodyText|, WebsiteTextCap)
  {
    if IsGmailHost(page.hostname) then None
    else Some(ContentDescription(Website, page.href, page.title, GetTextContent(page.bodyText)))
  }

  /** The substring test also matches hosts that merely embed the webmail
      name, and such a page is never scanned as a website. */
  lemma EmbeddedGmailHostSkipped(page: Page, before: string, after: string)
    requires page.hostname == before + GmailHost + after
    ensures ScanWebsite(page) == None
  {
    ContainsEmbedded(before, GmailHost, after);
  }

  /** The sender element (`.gD`): its visible text and its `email` attribute. */
  datatype SenderElement = SenderElement(text: string, emailAttr: Option<string>)

  /** The three regions of an open message: subject (`.hP`) text, the sender
      element (`.gD`) and body (`.a3s`) text, each possibly absent. */
  datatype MailView = MailView(subject: Option<string>, sender: Option<SenderElement>, body: Option<string>)

  function SenderName(sender: Option<SenderElement>): string {
    match sender
    case None => UnknownSender
    case Some(el) => el.text
  }

  /** `getAttribute("email") || innerText`, or "Unknown" without the element. */
  function SenderEmail(sender: Option<SenderElement>): string {
    match sender
    case None => UnknownSender
    case Some(el) => if Truthy(el.emailAttr) then el.emailAttr.value else el.text
  }

  /** The sender fallbacks: without the element both parts are "Unknown"; with
      it the name is its text and the address is a non-empty `email`
      attribute, otherwise its text. */
  lemma SenderFallbacks(sender: Option<SenderElement>)
    ensures sender.None? ==> SenderName(sender) == UnknownSender && SenderEmail(sender) == UnknownSender
    ensures sender.Some? ==> SenderName(sender) == sender.value.text
    ensures sender.Some? && Truthy(sender.value.emailAttr) ==> SenderEmail(sender) == sender.value.emailAttr.value
    ensures sender.Some? && !Truthy(sender.value.emailAttr) ==> SenderEmail(sender) == sender.value.text
  {
  }

  /** `checkForEmailOpen`: a description is sent exactly when both the subject
      and the body are present (a missing sender does not block it); its source
      is `name <address>` and its body is the full, untruncated message text. */
  function CheckForEmailOpen(view: MailView): (msg: Option<ContentDescription>)
    ensures msg.Some? <==> view.subject.Some? && view.body.Some?
    ensures msg.Some? ==>
      msg.value.kind == Email && msg.value.kind.Name() == "email" &&
      msg.value.source == SenderName(view.sender) + " <" + SenderEmail(view.sender) + ">" &&
      msg.value.title == view.subject.value && msg.value.content == view.body.value
  {
    if view.subject.Some? && view.body.Some? then
      Some(ContentDescription(Email, SenderName(view.sender) + " <" + SenderEmail(view.sender) + ">",
                              view.subject.value, view.body.value))
    else None
  }

  /** What loading the script does: a website scan, or on webmail the watcher. */
  datatype LoadEffect = LoadEffect(scan: Option<ContentDescription>, watcherInstalled: bool)

  /** The initialization block: a non-webmail host is scanned once as a website,
      a webmail host is not scanned and gets the watcher instead. */
  function OnLoad(page: Page): (e: LoadEffect)
    ensures e.watcherInstalled <==> IsGmailHost(page.hostname)
    ensures e.scan.Some? <==> !e.watcherInstalled
    ensures e.scan.Some? ==> e.scan == ScanWebsite(page)
  {
    if !IsGmailHost(page.hostname) then LoadEffect(ScanWebsite(page), false)
    else LoadEffect(None, true)
  }

  /** One settled mutation batch on the webmail page: the address at that
      moment and the mail regions present. */
  datatype Observation = Observation(href: string, view: MailView)

  /** The address observed just before observation i (the load address for the first). */
  function PreviousHref(initialHref: string, obs: seq<Observation>, i: nat): string
    requires i < |obs|
  {
    if i == 0 then initialHref else obs[i - 1].href
  }

  /** The descriptions sent over a run: one per observation whose address
      differs from the previous one and whose message is open. */
  function Dispatched(initialHref: string, obs: seq<Observation>): seq<ContentDescription> {
    if |obs| == 0 then []
    else
      var n := |obs| - 1;
      var step := if obs[n].href != PreviousHref(initialHref, obs, n) then CheckForEmailOpen(obs[n].view) else None;
      Dispatched(initialHref, obs[..n]) + (if step.Some? then [step.value] else [])
  }

  /** A run that never leaves the load address sends nothing, however much
      the page changes underneath. */
  lemma {:induction false} StayingPutSendsNothing(initialHref: string, obs: seq<Observation>)
    requires forall i :: 0 <= i < |obs| ==> obs[i].href == initialHref
    ensures Dispatched(initialHref, obs) == []
  {
    if |obs| > 0 {
      var n := |obs| - 1;
      StayingPutSendsNothing(initialHref, obs[..n]);
    }
  }

  /** The `lastUrl` filter of `setupGmailObserver` over a run of settled
      mutation batches. `checkForEmailOpen` runs at batch i exactly when the
      address differs from the one observed just before it: the load address
      never fires on its own and a repeated address fires nothing. `lastUrl`
      ends as the last address seen. */
  method WatchMail(initialHref: string, obs: seq<Observation>)
    returns (fired: seq<bool>, sent: seq<ContentDescription>, lastUrl: string)
    ensures |fired| == |obs|
    ensures forall i :: 0 <= i < |obs| ==> (fired[i] <==> obs[i].href != PreviousHref(initialHref, obs, i))
    ensures lastUrl == if |obs| == 0 then initialHref else obs[|obs| - 1].href
    ensures sent == Dispatched(initialHref, obs)
  {
    lastUrl := initialHref;
    fired, sent := [], [];
    var i := 0;
    while i < |obs|
      invariant 0 <= i <= |obs|
      invariant |fired| == i
      invariant lastUrl == if i == 0 then initialHref else obs[i - 1].href
      invariant forall k :: 0 <= k < i ==> (fired[k] <==> obs[k].href != PreviousHref(initialHref, obs, k))
      invariant sent == Dispatched(initialHref, obs[..i])
    {
      var changed := obs[i].href != lastUrl;
      assert obs[..i + 1][..i] == obs[..i];
      assert PreviousHref(initialHref, obs[..i + 1], i) == lastUrl;
      if changed {
        lastUrl := obs[i].href;
        var msg := CheckForEmailOpen(obs[i].view);
        if msg.Some? {
          sent := sent + [msg.value];
        }
      }
      fired := fired + [changed];
      i := i + 1;
    }
    assert obs[..i] == obs;
  }
}
