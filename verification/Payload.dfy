/** The requests the two providers receive for one and the same job. */
module Payload {
  import opened Models
  import opened Lifecycle
  import M = Mime

  /** An attachment as read from disk; both senders base64-encode `bytes` for the wire. */
  datatype Loaded = Loaded(name: string, contentType: string, bytes: Bytes)

  datatype GraphRecipient = GraphRecipient(address: string)

  datatype GraphMessage = GraphMessage(
    subject: string,
    contentType: string,
    content: string,
    to: seq<GraphRecipient>,
    cc: seq<GraphRecipient>,
    bcc: seq<GraphRecipient>,
    attachments: seq<Loaded>)

  /** The SendGrid message under construction. */
  class SendGridMessage {
    const from: string
    const subject: string
    var tos: seq<string>
    var ccs: seq<string>
    var bccs: seq<string>
    var contents: seq<(string, string)>
    var attachments: seq<Loaded>

    constructor (from: string, subject: string)
      ensures this.from == from && this.subject == subject
      ensures tos == [] && ccs == [] && bccs == [] && contents == [] && attachments == []
    {
      this.from, this.subject := from, subject;
      tos, ccs, bccs, contents, attachments := [], [], [], [], [];
    }
  }

  // ---- What both must read

  function TypeOrDefault(contentType: string): string
  {
    if contentType == "" then "application/octet-stream" else contentType
  }

  predicate IsLoaded(l: Loaded, a: AttachmentInfo, disk: Disk)
    requires a.storagePath in disk
  {
    l.name == M.Base(a.filename) && l.contentType == TypeOrDefault(a.contentType) && l.bytes == disk[a.storagePath]
  }

  /** Every attachment is loaded, in order. */
  predicate AllLoaded(loaded: seq<Loaded>, attachments: seq<AttachmentInfo>, disk: Disk)
  {
    && |loaded| == |attachments|
    && forall i :: 0 <= i < |loaded| ==> attachments[i].storagePath in disk && IsLoaded(loaded[i], attachments[i], disk)
  }

  /** The first attachment that cannot be read is this one. */
  predicate FirstUnreadable(attachments: seq<AttachmentInfo>, disk: Disk, i: nat)
  {
    && i < |attachments| && attachments[i].storagePath !in disk
    && forall j :: 0 <= j < i ==> attachments[j].storagePath in disk
  }

  function Addresses(recipients: seq<GraphRecipient>): seq<string>
  {
    seq(|recipients|, i requires 0 <= i < |recipients| => recipients[i].address)
  }

  // ---- Microsoft Graph

  method GraphRecipients(addresses: seq<string>) returns (recipients: seq<GraphRecipient>)
    ensures Addresses(recipients) == addresses
  {
    var slots := new GraphRecipient[|addresses|](_ => GraphRecipient(""));
    for i := 0 to |addresses|
      invariant forall j :: 0 <= j < i ==> slots[j] == GraphRecipient(addresses[j])
    {
      slots[i] := GraphRecipient(addresses[i]);
    }
    recipients := slots[..];
  }

  /** On failure the index of the attachment that could not be read is returned. */
  method GraphAttachments(attachments: seq<AttachmentInfo>, disk: Disk) returns (r: Result<seq<Loaded>, nat>)
    ensures r.Ok? ==> AllLoaded(r.value, attachments, disk)
    ensures r.Err? ==> FirstUnreadable(attachments, disk, r.error)
  {
    var loaded := [];
    for i := 0 to |attachments|
      invariant AllLoaded(loaded, attachments[..i], disk)
    {
      var a := attachments[i];
      if a.storagePath !in disk {
        assert forall j :: 0 <= j < i ==> attachments[..i][j] == attachments[j];
        return Err(i);
      }
      var contentType := a.contentType;
      if contentType == "" {
        contentType := "application/octet-stream";
      }
      loaded := loaded + [Loaded(M.Base(a.filename), contentType, disk[a.storagePath])];
    }
    assert attachments[..|attachments|] == attachments;
    return Ok(loaded);
  }

  method BuildGraph(c: MailContent, disk: Disk) returns (r: Result<GraphMessage, nat>)
    ensures r.Ok? ==>
      && Addresses(r.value.to) == c.to && Addresses(r.value.cc) == c.cc && Addresses(r.value.bcc) == c.bcc
      && r.value.subject == c.subject
      && (if c.html != "" then r.value.contentType == "html" && r.value.content == c.html
          else r.value.contentType == "text" && r.value.content == c.body)
      && AllLoaded(r.value.attachments, c.attachments, disk)
    ensures r.Err? ==> FirstUnreadable(c.attachments, disk, r.error)
  {
    var contentType, content := "text", c.body;
    if c.html != "" {
      contentType, content := "html", c.html;
    }
    var to := GraphRecipients(c.to);
    var cc := GraphRecipients(c.cc);
    var bcc := GraphRecipients(c.bcc);
    var loaded := GraphAttachments(c.attachments, disk);
    if loaded.Err? {
      return Err(loaded.error);
    }
    return Ok(GraphMessage(c.subject, contentType, content, to, cc, bcc, loaded.value));
  }

  // ---- SendGrid

  method BuildSendGrid(c: MailContent, disk: Disk) returns (m: SendGridMessage, failure: Option<nat>)
    ensures fresh(m)
    ensures m.from == c.from && m.subject == c.subject
    ensures m.tos == c.to && m.ccs == c.cc && m.bccs == c.bcc
    ensures m.contents ==
      (if c.body != "" then [("text/plain", c.body)] else [])
      + (if c.html != "" then [("text/html", c.html)] else [])
    ensures failure.None? ==> AllLoaded(m.attachments, c.attachments, disk)
    ensures failure.Some? ==> FirstUnreadable(c.attachments, disk, failure.value)
  {
    m := new SendGridMessage(c.from, c.subject);
    for i := 0 to |c.to|
      invariant m.tos == c.to[..i] && m.ccs == [] && m.bccs == [] && m.contents == [] && m.attachments == []
    {
      m.tos := m.tos + [c.to[i]];
    }
    for i := 0 to |c.cc|
      invariant m.tos == c.to && m.ccs == c.cc[..i] && m.bccs == [] && m.contents == [] && m.attachments == []
    {
      m.ccs := m.ccs + [c.cc[i]];
    }
    for i := 0 to |c.bcc|
      invariant m.tos == c.to && m.ccs == c.cc && m.bccs == c.bcc[..i] && m.contents == [] && m.attachments == []
    {
      m.bccs := m.bccs + [c.bcc[i]];
    }
    if c.body != "" {
      m.contents := m.contents + [("text/plain", c.body)];
    }
    if c.html != "" {
      m.contents := m.contents + [("text/html", c.html)];
    }
    failure := SendGridAttachments(m, c.attachments, disk);
  }

  method SendGridAttachments(m: SendGridMessage, attachments: seq<AttachmentInfo>, disk: Disk)
    returns (failure: Option<nat>)
    requires m.attachments == []
    modifies m`attachments
    ensures failure.None? ==> AllLoaded(m.attachments, attachments, disk)
    ensures failure.Some? ==> FirstUnreadable(attachments, disk, failure.value)
  {
    for i := 0 to |attachments|
      invariant AllLoaded(m.attachments, attachments[..i], disk)
    {
      var a := attachments[i];
      if a.storagePath !in disk {
        assert forall j :: 0 <= j < i ==> attachments[..i][j] == attachments[j];
        return Some(i);
      }
      var contentType := if a.contentType == "" then "application/octet-stream" else a.contentType;
      m.attachments := m.attachments + [Loaded(M.Base(a.filename), contentType, disk[a.storagePath])];
    }
    assert attachments[..|attachments|] == attachments;
    return None;
  }

  // ---- Agreement

  lemma LoadedIsUnique(a: seq<Loaded>, b: seq<Loaded>, attachments: seq<AttachmentInfo>, disk: Disk)
    requires AllLoaded(a, attachments, disk) && AllLoaded(b, attachments, disk)
    ensures a == b
  {
    assert forall i :: 0 <= i < |a| ==> a[i] == b[i];
  }

  lemma UnreadableIsUnique(attachments: seq<AttachmentInfo>, disk: Disk, i: nat, j: nat)
    requires FirstUnreadable(attachments, disk, i) && FirstUnreadable(attachments, disk, j)
    ensures i == j
  {
  }

  /** For every job both senders address the same people in the same order and attach the same
      files, or both fail on the same first unreadable attachment; they succeed exactly when
      every attachment can be read. */
  method BuildBoth(c: MailContent, disk: Disk)
    returns (g: Result<GraphMessage, nat>, m: SendGridMessage, failure: Option<nat>)
    ensures g.Ok? <==> failure.None?
    ensures g.Ok? <==> Loadable(c, disk)
    ensures g.Ok? ==> Addresses(g.value.to) == m.tos && Addresses(g.value.cc) == m.ccs && Addresses(g.value.bcc) == m.bccs
    ensures g.Ok? ==> g.value.attachments == m.attachments
    ensures g.Err? ==> failure == Some(g.error)
  {
    g := BuildGraph(c, disk);
    m, failure := BuildSendGrid(c, disk);
    LoadableExactly(c, disk);
    if g.Ok? && failure.None? {
      LoadedIsUnique(g.value.attachments, m.attachments, c.attachments, disk);
    }
    if g.Err? && failure.Some? {
      UnreadableIsUnique(c.attachments, disk, g.error, failure.value);
    }
    assert g.Err? ==> c.attachments[g.error].storagePath !in disk;
    assert failure.Some? ==> c.attachments[failure.value].storagePath !in disk;
  }

  /** A loaded attachment has the base of the entry's name, its type or the default one, and the bytes
      found under its path. */
  lemma LoadedIs(l: Loaded, a: AttachmentInfo, disk: Disk)
    requires a.storagePath in disk && IsLoaded(l, a, disk)
    ensures l.name == M.Base(a.filename) && l.bytes == disk[a.storagePath]
    ensures l.contentType == if a.contentType == "" then "application/octet-stream" else a.contentType
  {
  }

  /** Being loadable means being readable position by position. */
  lemma LoadableExactly(c: MailContent, disk: Disk)
    ensures Loadable(c, disk) <==> forall i :: 0 <= i < |c.attachments| ==> c.attachments[i].storagePath in disk
  {
    if forall i :: 0 <= i < |c.attachments| ==> c.attachments[i].storagePath in disk {
      forall a | a in c.attachments
        ensures a.storagePath in disk
      {
        var i :| 0 <= i < |c.attachments| && c.attachments[i] == a;
      }
    }
  }
}
