/**
 The payloads of the binary device protocol. Requests carry length-prefixed texts, the last of which
 may be absent; the poll response is filled into one buffer at a moving offset.
 */
module Payloads {
  import opened Basics
  import opened BigEndian
  import opened Frames
  import Selection

  /** strings.TrimSpace, and strings.ToValidUTF8 which leaves valid text alone. */
  datatype TextOps = TextOps(trim: Bytes -> Bytes, scrub: Bytes -> Bytes) {
    function Clean(s: Bytes): Bytes {
      trim(scrub(s))
    }

    /** Both only ever drop octets. */
    ghost predicate Shrinks() {
      (forall s :: |trim(s)| <= |s|) && (forall s :: |scrub(s)| <= |s|)
    }

    /** Valid text without outer white space. */
    predicate IsClean(s: Bytes) {
      scrub(s) == s && trim(s) == s
    }
  }

  const MAX_TEXT := 0x1_0000

  /** A text with its length in front. */
  function Field(s: Bytes): (b: Bytes)
    ensures |b| == 2 + |s|
  {
    Encode(|s|, 2) + s
  }

  /** The text whose length stands at an offset, if it fits. */
  function FieldAt(p: Bytes, at: nat): (r: Option<Bytes>)
    requires at + 2 <= |p|
    ensures r.Some? ==> at + 2 + |r.value| <= |p| && |r.value| < MAX_TEXT
  {
    var n := U16At(p, at);
    if at + 2 + n > |p| then None else Some(p[at + 2..at + 2 + n])
  }

  lemma FieldIsFound(before: Bytes, s: Bytes, after: Bytes)
    requires |s| < MAX_TEXT
    ensures FieldAt(before + Field(s) + after, |before|) == Some(s)
  {
    var p, at := before + Field(s) + after, |before|;
    WordsOf(2);
    assert p[at..at + 2] == Encode(|s|, 2);
    WordRoundTrip(p, at, 2, |s|);
    assert p[at + 2..at + 2 + |s|] == s;
  }

  lemma FoundIsField(p: Bytes, at: nat)
    requires at + 2 <= |p| && FieldAt(p, at).Some?
    ensures p[at..at + 2 + |FieldAt(p, at).value|] == Field(FieldAt(p, at).value)
  {
    var s := FieldAt(p, at).value;
    WordsOf(2);
    WordRoundTrip(p, at, 2, |s|);
    assert p[at..at + 2 + |s|] == p[at..at + 2] + p[at + 2..at + 2 + |s|];
  }

  // ---------------------------------------------------------------------------
  // Authentication
  // ---------------------------------------------------------------------------

  function DecodeAuth(ops: TextOps, p: Bytes): Option<Bytes> {
    if |p| < 2 || FieldAt(p, 0).None? then None else Some(ops.Clean(FieldAt(p, 0).value))
  }

  /** The payload starts with the token and its length. */
  predicate LedBy(p: Bytes, token: Bytes) {
    |token| < MAX_TEXT && Field(token) <= p
  }

  lemma LedPayloadsDecode(ops: TextOps, p: Bytes, token: Bytes)
    requires LedBy(p, token)
    ensures DecodeAuth(ops, p) == Some(ops.Clean(token))
  {
    var n := |Field(token)|;
    FieldIsFound([], token, p[n..]);
    assert [] + Field(token) + p[n..] == p;
  }

  /** A payload is accepted exactly when a token leads it, and then yields that token cleaned. */
  lemma AuthDecodesExactly(ops: TextOps, p: Bytes)
    ensures DecodeAuth(ops, p).Some? <==> exists token: Bytes :: LedBy(p, token)
    ensures forall token: Bytes | LedBy(p, token) :: DecodeAuth(ops, p) == Some(ops.trim(ops.scrub(token)))
  {
    if DecodeAuth(ops, p).Some? {
      var token := FieldAt(p, 0).value;
      FoundIsField(p, 0);
      assert p[0..2 + |token|] == p[..2 + |token|];
      assert LedBy(p, token);
    }
    forall token: Bytes | LedBy(p, token)
      ensures DecodeAuth(ops, p) == Some(ops.trim(ops.scrub(token)))
    {
      LedPayloadsDecode(ops, p, token);
    }
  }

  lemma AuthRoundTrip(ops: TextOps, token: Bytes, tail: Bytes)
    requires |token| < MAX_TEXT && ops.IsClean(token)
    ensures DecodeAuth(ops, Field(token) + tail) == Some(token)
  {
    FieldIsFound([], token, tail);
    assert [] + Field(token) + tail == Field(token) + tail;
  }

  method DecodeAuthPayload(ops: TextOps, p: Bytes) returns (token: Option<Bytes>)
    ensures token == DecodeAuth(ops, p)
  {
    if |p| < 2 {
      return None;
    }
    var n := U16At(p, 0);
    if 2 + n > |p| {
      return None;
    }
    token := Some(ops.trim(ops.scrub(p[2..2 + n])));
  }

  // ---------------------------------------------------------------------------
  // Polls
  // ---------------------------------------------------------------------------

  datatype PollRequest = PollRequest(version: Bytes, meta: Bytes)

  /** Without the optional part the version is trimmed but not scrubbed. */
  function DecodePoll(ops: TextOps, p: Bytes): Option<PollRequest> {
    if |p| < 2 || FieldAt(p, 0).None? then None
    else
      var cur := FieldAt(p, 0).value;
      var off := 2 + |cur|;
      if off + 2 > |p| then Some(PollRequest(ops.trim(cur), []))
      else if FieldAt(p, off).None? then None
      else Some(PollRequest(ops.Clean(cur), ops.Clean(FieldAt(p, off).value)))
  }

  method DecodePollPayload(ops: TextOps, p: Bytes) returns (r: Option<PollRequest>)
    ensures r == DecodePoll(ops, p)
  {
    if |p| < 2 {
      return None;
    }
    var n := U16At(p, 0);
    if 2 + n > |p| {
      return None;
    }
    var cur := p[2..2 + n];
    var off := 2 + n;
    if off + 2 > |p| {
      return Some(PollRequest(ops.trim(cur), []));
    }
    var m := U16At(p, off);
    if off + 2 + m > |p| {
      return None;
    }
    var meta := p[off + 2..off + 2 + m];
    cur := ops.scrub(cur);
    meta := ops.scrub(meta);
    r := Some(PollRequest(ops.trim(cur), ops.trim(meta)));
  }

  /** The optional second text, then anything; without it, at most one stray octet. */
  function Optional(text: Option<Bytes>): Bytes {
    if text.Some? then Field(text.value) else []
  }

  predicate TailFits(text: Option<Bytes>, tail: Bytes) {
    if text.Some? then |text.value| < MAX_TEXT else |tail| < 2
  }

  ghost predicate PollLayout(p: Bytes, cur: Bytes, meta: Option<Bytes>, tail: Bytes) {
    |cur| < MAX_TEXT && TailFits(meta, tail) && p == Field(cur) + Optional(meta) + tail
  }

  lemma PollDecodesLayout(ops: TextOps, p: Bytes, cur: Bytes, meta: Option<Bytes>, tail: Bytes)
    requires PollLayout(p, cur, meta, tail)
    ensures DecodePoll(ops, p) ==
            Some(if meta.Some? then PollRequest(ops.trim(ops.scrub(cur)), ops.trim(ops.scrub(meta.value)))
                 else PollRequest(ops.trim(cur), []))
  {
    FieldIsFound([], cur, Optional(meta) + tail);
    assert [] + Field(cur) + (Optional(meta) + tail) == p;
    if meta.Some? {
      FieldIsFound(Field(cur), meta.value, tail);
    }
  }

  /** Nothing else is accepted. */
  lemma PollNeedsLayout(ops: TextOps, p: Bytes) returns (cur: Bytes, meta: Option<Bytes>, tail: Bytes)
    requires DecodePoll(ops, p).Some?
    ensures PollLayout(p, cur, meta, tail)
  {
    cur := FieldAt(p, 0).value;
    var off := 2 + |cur|;
    FoundIsField(p, 0);
    assert p == p[0..off] + p[off..];
    if off + 2 > |p| {
      meta, tail := None, p[off..];
      assert p == Field(cur) + [] + tail;
    } else {
      meta := FieldAt(p, off);
      FoundIsField(p, off);
      var next := off + 2 + |meta.value|;
      tail := p[next..];
      assert p[off..] == p[off..next] + p[next..];
    }
  }

  lemma PollRoundTrip(ops: TextOps, cur: Bytes, meta: Bytes)
    requires |cur| < MAX_TEXT && |meta| < MAX_TEXT && ops.IsClean(cur) && ops.IsClean(meta)
    ensures DecodePoll(ops, Field(cur)) == Some(PollRequest(cur, []))
    ensures DecodePoll(ops, Field(cur) + Field(meta)) == Some(PollRequest(cur, meta))
  {
    assert Field(cur) + Optional(None) + [] == Field(cur);
    PollDecodesLayout(ops, Field(cur), cur, None, []);
    assert Field(cur) + Optional(Some(meta)) + [] == Field(cur) + Field(meta);
    PollDecodesLayout(ops, Field(cur) + Field(meta), cur, Some(meta), []);
  }

  // ---------------------------------------------------------------------------
  // Reports
  // ---------------------------------------------------------------------------

  datatype Report = Report(campaign: Id, status: byte, code: u16, msg: Bytes, version: Bytes)

  const MSG_AT := 19

  function CampaignAt(p: Bytes): Id
    requires |p| >= 16
  {
    WordsOf(16);
    WordAt(p, 0, 16)
  }

  /** Without the optional part the message is taken as it came. */
  function DecodeReport(ops: TextOps, p: Bytes): Option<Report> {
    if |p| < 21 || FieldAt(p, MSG_AT).None? then None
    else
      var msg := FieldAt(p, MSG_AT).value;
      var off := MSG_AT + 2 + |msg|;
      var head := Report(CampaignAt(p), p[16], U16At(p, 17), msg, []);
      if off + 2 > |p| then Some(head)
      else if FieldAt(p, off).None? then None
      else Some(head.(msg := ops.Clean(msg), version := ops.Clean(FieldAt(p, off).value)))
  }

  method DecodeReportPayload(ops: TextOps, p: Bytes) returns (r: Option<Report>)
    ensures r == DecodeReport(ops, p)
  {
    if |p| < 16 + 1 + 2 + 2 {
      return None;
    }
    var campaign, status, code := CampaignAt(p), p[16], U16At(p, 17);
    var off := MSG_AT;
    var eml := U16At(p, off);
    off := off + 2;
    if off + eml > |p| {
      return None;
    }
    var msg := p[off..off + eml];
    off := off + eml;
    if off + 2 > |p| {
      return Some(Report(campaign, status, code, msg, []));
    }
    var cvl := U16At(p, off);
    off := off + 2;
    if off + cvl > |p| {
      return None;
    }
    var version := p[off..off + cvl];
    msg := ops.scrub(msg);
    version := ops.scrub(version);
    r := Some(Report(campaign, status, code, ops.trim(msg), ops.trim(version)));
  }

  function ReportHead(campaign: Id, status: byte, code: u16): (b: Bytes)
    ensures |b| == MSG_AT
  {
    Encode(campaign, 16) + [status] + Encode(code, 2)
  }

  lemma ReportHeadFields(p: Bytes, campaign: Id, status: byte, code: u16)
    requires |p| >= MSG_AT
    ensures p[..MSG_AT] == ReportHead(campaign, status, code) <==>
            CampaignAt(p) == campaign && p[16] == status && U16At(p, 17) == code
  {
    WordsOf(2);
    WordsOf(16);
    WordRoundTrip(p, 0, 16, campaign);
    WordRoundTrip(p, 17, 2, code);
    var h := ReportHead(campaign, status, code);
    assert h[0..16] == Encode(campaign, 16) && h[16] == status && h[17..19] == Encode(code, 2);
    assert p[..MSG_AT][0..16] == p[0..16] && p[..MSG_AT][16] == p[16] && p[..MSG_AT][17..19] == p[17..19];
    assert p[..MSG_AT] == p[0..16] + [p[16]] + p[17..19];
  }

  ghost predicate ReportLayout(p: Bytes, head: Report, version: Option<Bytes>, tail: Bytes) {
    && |head.msg| < MAX_TEXT && TailFits(version, tail)
    && p == ReportHead(head.campaign, head.status, head.code) + Field(head.msg) + Optional(version) + tail
  }

  lemma ReportParts(p: Bytes, head: Report, version: Option<Bytes>, tail: Bytes)
    requires ReportLayout(p, head, version, tail)
    ensures |p| >= 21 + |head.msg|
    ensures p[..MSG_AT] == ReportHead(head.campaign, head.status, head.code) && FieldAt(p, MSG_AT) == Some(head.msg)
    ensures version.Some? <==> |p| >= 23 + |head.msg|
    ensures version.Some? ==> FieldAt(p, 21 + |head.msg|) == version
  {
    var h := ReportHead(head.campaign, head.status, head.code);
    FieldIsFound(h, head.msg, Optional(version) + tail);
    assert h + Field(head.msg) + (Optional(version) + tail) == p;
    if version.Some? {
      FieldIsFound(h + Field(head.msg), version.value, tail);
    }
  }

  lemma ReportDecodesLayout(ops: TextOps, p: Bytes, head: Report, version: Option<Bytes>, tail: Bytes)
    requires ReportLayout(p, head, version, tail)
    ensures DecodeReport(ops, p) ==
            Some(if version.Some? then head.(msg := ops.trim(ops.scrub(head.msg)), version := ops.trim(ops.scrub(version.value)))
                 else head.(version := []))
  {
    ReportParts(p, head, version, tail);
    ReportHeadFields(p, head.campaign, head.status, head.code);
  }

  /** Nothing else is accepted. */
  lemma ReportNeedsLayout(ops: TextOps, p: Bytes) returns (head: Report, version: Option<Bytes>, tail: Bytes)
    requires DecodeReport(ops, p).Some?
    ensures ReportLayout(p, head, version, tail)
  {
    head := Report(CampaignAt(p), p[16], U16At(p, 17), FieldAt(p, MSG_AT).value, []);
    var off := MSG_AT + 2 + |head.msg|;
    ReportHeadFields(p, head.campaign, head.status, head.code);
    FoundIsField(p, MSG_AT);
    assert p == p[..MSG_AT] + p[MSG_AT..off] + p[off..];
    if off + 2 > |p| {
      version, tail := None, p[off..];
      assert p == p[..MSG_AT] + p[MSG_AT..off] + [] + tail;
    } else {
      version := FieldAt(p, off);
      FoundIsField(p, off);
      var next := off + 2 + |version.value|;
      tail := p[next..];
      assert p[off..] == p[off..next] + p[next..];
    }
  }

  lemma ReportRoundTrip(ops: TextOps, report: Report)
    requires |report.msg| < MAX_TEXT && |report.version| < MAX_TEXT && ops.IsClean(report.msg) && ops.IsClean(report.version)
    ensures var head := ReportHead(report.campaign, report.status, report.code) + Field(report.msg);
            && DecodeReport(ops, head) == Some(report.(version := []))
            && DecodeReport(ops, head + Field(report.version)) == Some(report)
  {
    var head := ReportHead(report.campaign, report.status, report.code) + Field(report.msg);
    assert head + Optional(None) + [] == head;
    ReportDecodesLayout(ops, head, report, None, []);
    assert head + Optional(Some(report.version)) + [] == head + Field(report.version);
    ReportDecodesLayout(ops, head + Field(report.version), report, Some(report.version), []);
  }

  // ---------------------------------------------------------------------------
  // The poll response
  // ---------------------------------------------------------------------------

  datatype Update = Update(version: Bytes, checksum: Bytes, campaign: Id, firmware: Id, url: Bytes, expires: u32)

  datatype PollResponse = NoUpdate | UpdateAvailable(update: Update)

  predicate Encodable(u: Update) {
    |u.version| <= MAX_PAYLOAD / 4 && |u.url| <= MAX_PAYLOAD && |u.checksum| == 32
  }

  function ResponseMiddle(u: Update): Bytes {
    u.checksum + Encode(u.campaign, 16) + Encode(u.firmware, 16)
  }

  function ResponseOctets(available: bool, u: Update): (b: Bytes)
    requires |u.checksum| == 32
    ensures |b| == 73 + |u.version| + |u.url|
  {
    [if available then 1 else 0] + Field(u.version) + ResponseMiddle(u) + Field(u.url) + Encode(u.expires, 4)
  }

  /** copy(out[at:], b) */
  method CopyInto(buf: array<byte>, at: nat, b: Bytes)
    requires at + |b| <= buf.Length
    modifies buf
    ensures buf[..] == old(buf[..at]) + b + old(buf[at + |b|..])
  {
    for i := 0 to |b|
      invariant buf[..] == old(buf[..at]) + b[..i] + old(buf[at + i..])
    {
      buf[at + i] := b[i];
      assert b[..i + 1] == b[..i] + [b[i]];
    }
    assert b[..|b|] == b;
  }

  /** Writing at the frontier: what is done grows by b, what is to come shrinks. */
  method Append(buf: array<byte>, at: nat, b: Bytes) returns (next: nat)
    requires at + |b| <= buf.Length
    modifies buf
    ensures next == at + |b| && buf[..next] == old(buf[..at]) + b
  {
    CopyInto(buf, at, b);
    next := at + |b|;
    assert buf[..][..next] == buf[..next];
  }

  /** The first half of the buffer, up to the checksum. */
  method FillFront(buf: array<byte>, available: bool, u: Update) returns (o: nat)
    requires |u.version| < MAX_TEXT && buf.Length >= 3 + |u.version| + |u.checksum|
    modifies buf
    ensures o == 3 + |u.version| + |u.checksum|
    ensures buf[..o] == [if available then 1 else 0] + Field(u.version) + u.checksum
  {
    buf[0] := if available then 1 else 0;
    o := 1;
    o := Append(buf, o, Encode(|u.version|, 2));
    o := Append(buf, o, u.version);
    o := Append(buf, o, u.checksum);
  }

  /** The second half: ids, URL, expiry. */
  method FillBack(buf: array<byte>, at: nat, u: Update) returns (o: nat)
    requires |u.url| < MAX_TEXT && buf.Length >= at + 38 + |u.url|
    modifies buf
    ensures o == at + 38 + |u.url|
    ensures buf[..o] == old(buf[..at]) + ((Encode(u.campaign, 16) + Encode(u.firmware, 16)) + (Field(u.url) + Encode(u.expires, 4)))
  {
    o := Append(buf, at, Encode(u.campaign, 16));
    o := Append(buf, o, Encode(u.firmware, 16));
    o := Append(buf, o, Encode(|u.url|, 2));
    o := Append(buf, o, u.url);
    o := Append(buf, o, Encode(u.expires, 4));
  }

  lemma ResponseHalves(available: bool, u: Update)
    requires |u.checksum| == 32
    ensures ResponseOctets(available, u) ==
            ([if available then 1 else 0] + Field(u.version) + u.checksum)
            + ((Encode(u.campaign, 16) + Encode(u.firmware, 16)) + (Field(u.url) + Encode(u.expires, 4)))
  {
  }

  method EncodePollResponse(available: bool, u: Update) returns (out: Option<Bytes>)
    requires |u.checksum| == 32
    ensures out.Some? <==> Encodable(u)
    ensures out.Some? ==> out.value == ResponseOctets(available, u)
  {
    if |u.version| > MAX_PAYLOAD / 4 || |u.url| > MAX_PAYLOAD {
      return None;
    }
    var buf := new byte[1 + 2 + |u.version| + 32 + 16 + 16 + 2 + |u.url| + 4];
    var o := FillFront(buf, available, u);
    o := FillBack(buf, o, u);
    ResponseHalves(available, u);
    assert buf[..o] == buf[..];
    out := Some(buf[..]);
  }

  /** A decoder written from the layout in docs/device-tcp-protocol.md. */
  function DecodeResponse(b: Bytes): Option<PollResponse> {
    if b == [0] then Some(NoUpdate)
    else if |b| < 3 || b[0] != 1 || FieldAt(b, 1).None? then None
    else
      var version := FieldAt(b, 1).value;
      var m := 3 + |version|;
      if m + 66 > |b| || FieldAt(b, m + 64).None? then None
      else
        var url := FieldAt(b, m + 64).value;
        var e := m + 66 + |url|;
        if e + 4 != |b| then None
        else
          WordsOf(16);
          Some(UpdateAvailable(Update(version, b[m..m + 32], WordAt(b, m + 32, 16), WordAt(b, m + 48, 16), url, U32At(b, e))))
  }

  lemma MiddleFields(b: Bytes, m: nat, u: Update)
    requires m + 64 <= |b| && |u.checksum| == 32
    ensures b[m..m + 64] == ResponseMiddle(u) <==>
            b[m..m + 32] == u.checksum && WordAt(b, m + 32, 16) == u.campaign && WordAt(b, m + 48, 16) == u.firmware
  {
    WordsOf(16);
    WordRoundTrip(b, m + 32, 16, u.campaign);
    WordRoundTrip(b, m + 48, 16, u.firmware);
    var w, r := b[m..m + 64], ResponseMiddle(u);
    assert w[0..32] == b[m..m + 32] && w[32..48] == b[m + 32..m + 48] && w[48..64] == b[m + 48..m + 64];
    assert w == w[0..32] + w[32..48] + w[48..64];
    assert r[0..32] == u.checksum && r[32..48] == Encode(u.campaign, 16) && r[48..64] == Encode(u.firmware, 16);
  }

  /** Where the parts of a response are found. */
  lemma ResponseParts(u: Update)
    requires Encodable(u)
    ensures var b, m, e := ResponseOctets(true, u), 3 + |u.version|, 69 + |u.version| + |u.url|;
            && FieldAt(b, 1) == Some(u.version)
            && b[m..m + 64] == ResponseMiddle(u)
            && FieldAt(b, m + 64) == Some(u.url)
            && b[e..e + 4] == Encode(u.expires, 4)
  {
    var first, last: Bytes := [1], Encode(u.expires, 4);
    var b, front := ResponseOctets(true, u), first + Field(u.version) + ResponseMiddle(u);
    FieldIsFound(first, u.version, ResponseMiddle(u) + Field(u.url) + last);
    assert b == first + Field(u.version) + (ResponseMiddle(u) + Field(u.url) + last);
    FieldIsFound(front, u.url, last);
  }

  /** The documented decoder inverts the encoder on every response that announces an update. */
  lemma ResponseRoundTrip(u: Update)
    requires Encodable(u)
    ensures DecodeResponse(ResponseOctets(true, u)) == Some(UpdateAvailable(u))
  {
    var b, e := ResponseOctets(true, u), 69 + |u.version| + |u.url|;
    ResponseParts(u);
    MiddleFields(b, 3 + |u.version|, u);
    WordsOf(4);
    WordRoundTrip(b, e, 4, u.expires);
  }

  /**
   With the flag down the encoder would still append every field, which the documented layout does
   not allow. Its one caller (internal/transport/devotcp/handler.go:166) always raises the flag, so no
   such response is sent.
   */
  lemma OnlyAvailableResponsesFollowTheDocument(available: bool, u: Update)
    requires Encodable(u)
    ensures DecodeResponse(ResponseOctets(available, u)).Some? <==> available
  {
    ResponseRoundTrip(u);
  }

  lemma InFiveParts(b: Bytes, i: nat, j: nat, k: nat, l: nat)
    requires i <= j <= k <= l <= |b|
    ensures b == b[..i] + b[i..j] + b[j..k] + b[k..l] + b[l..]
  {
  }

  lemma DecodedParts(b: Bytes)
    requires DecodeResponse(b).Some? && DecodeResponse(b).value.UpdateAvailable?
    ensures var u := DecodeResponse(b).value.update;
            var m, e := 3 + |u.version|, 69 + |u.version| + |u.url|;
            && e + 4 == |b| && |u.checksum| == 32
            && b[..1] == [1] && b[1..m] == Field(u.version) && b[m..m + 64] == ResponseMiddle(u)
            && b[m + 64..e] == Field(u.url) && b[e..] == Encode(u.expires, 4)
  {
    var u := DecodeResponse(b).value.update;
    var m := 3 + |u.version|;
    var e := m + 66 + |u.url|;
    FoundIsField(b, 1);
    MiddleFields(b, m, u);
    FoundIsField(b, m + 64);
    WordsOf(4);
    WordRoundTrip(b, e, 4, u.expires);
    assert b[e..e + 4] == b[e..];
  }

  /** Only the encoder's octets decode to an update. */
  lemma DecodedResponsesReencode(b: Bytes)
    requires DecodeResponse(b).Some? && DecodeResponse(b).value.UpdateAvailable?
    ensures |DecodeResponse(b).value.update.checksum| == 32
    ensures ResponseOctets(true, DecodeResponse(b).value.update) == b
  {
    var u := DecodeResponse(b).value.update;
    DecodedParts(b);
    InFiveParts(b, 1, 3 + |u.version|, 67 + |u.version|, 69 + |u.version| + |u.url|);
  }

  // ---------------------------------------------------------------------------
  // Errors and checksums
  // ---------------------------------------------------------------------------

  /** The message is cut to 512 octets before it is made valid. */
  function ErrorText(ops: TextOps, msg: Bytes): Bytes {
    ops.scrub(if |msg| > 512 then msg[..512] else msg)
  }

  function ErrorOctets(ops: TextOps, code: u32, msg: Bytes): Bytes {
    Encode(code, 4) + Field(ErrorText(ops, msg))
  }

  /** Error payloads always fit in a frame and can be read back. */
  lemma ErrorsAreReadable(ops: TextOps, code: u32, msg: Bytes)
    requires ops.Shrinks()
    ensures var b := ErrorOctets(ops, code, msg);
            |b| <= 518 && U32At(b, 0) == code && FieldAt(b, 4) == Some(ErrorText(ops, msg))
  {
    var b := ErrorOctets(ops, code, msg);
    WordsOf(4);
    assert b[0..4] == Encode(code, 4);
    WordRoundTrip(b, 0, 4, code);
    FieldIsFound(Encode(code, 4), ErrorText(ops, msg), []);
    assert Encode(code, 4) + Field(ErrorText(ops, msg)) + [] == b;
  }

  method WriteErr(c: Connection, ops: TextOps, reqId: u32, code: u32, text: Bytes)
    requires ops.Shrinks()
    modifies c`output
    ensures |ErrorOctets(ops, code, text)| <= MAX_PAYLOAD
    ensures c.output == old(c.output) + Framed(Frame(255, reqId, ErrorOctets(ops, code, text)))
  {
    ErrorsAreReadable(ops, code, text);
    var msg := text;
    if |msg| > 512 {
      msg := msg[..512];
    }
    msg := ops.scrub(msg);
    var b := FillError(code, msg);
    var _ := c.WriteFrame(255, reqId, b);
  }

  method FillError(code: u32, msg: Bytes) returns (b: Bytes)
    requires |msg| < MAX_TEXT
    ensures b == Encode(code, 4) + Field(msg)
  {
    var buf := new byte[4 + 2 + |msg|];
    var o := Append(buf, 0, Encode(code, 4));
    o := Append(buf, o, Encode(|msg|, 2));
    o := Append(buf, o, msg);
    assert buf[..o] == buf[..];
    b := buf[..];
  }

  function HexValue(c: byte): (v: Option<nat>)
    ensures v.Some? ==> v.value < 16
  {
    if 48 <= c <= 57 then Some(c - 48)
    else if 97 <= c <= 102 then Some(c - 87)
    else if 65 <= c <= 70 then Some(c - 55)
    else None
  }

  /** hex.DecodeString */
  function HexDecode(s: Bytes): (r: Option<Bytes>)
    ensures r.Some? ==> |s| == 2 * |r.value|
  {
    if s == [] then Some([])
    else if |s| == 1 then None
    else
      var hi, lo, rest := HexValue(s[0]), HexValue(s[1]), HexDecode(s[2..]);
      if hi.None? || lo.None? || rest.None? then None
      else Some([hi.value * 16 + lo.value] + rest.value)
  }

  /** The value of a hexadecimal digit, in either case. */
  predicate IsDigit(c: byte, v: nat) {
    || (48 <= c <= 57 && v == c - 48)
    || (97 <= c <= 102 && v == c - 97 + 10)
    || (65 <= c <= 70 && v == c - 65 + 10)
  }

  ghost predicate Spells(s: Bytes, b: Bytes) {
    |s| == 2 * |b| && forall i | 0 <= i < |b| :: IsDigit(s[2 * i], b[i] / 16) && IsDigit(s[2 * i + 1], b[i] % 16)
  }

  /** A text decodes to exactly the octets it spells, two digits each. */
  lemma {:induction false} HexDecodesExactly(s: Bytes, b: Bytes)
    ensures HexDecode(s) == Some(b) <==> Spells(s, b)
  {
    if |s| > 1 && b != [] {
      HexDecodesExactly(s[2..], b[1..]);
      assert b == [b[0]] + b[1..];
      SpellsOneMore(s, b);
    }
  }

  lemma SpellsOneMore(s: Bytes, b: Bytes)
    requires |s| > 1 && b != []
    ensures Spells(s, b) <==> IsDigit(s[0], b[0] / 16) && IsDigit(s[1], b[0] % 16) && Spells(s[2..], b[1..])
  {
    if Spells(s[2..], b[1..]) && IsDigit(s[0], b[0] / 16) && IsDigit(s[1], b[0] % 16) {
      forall i | 0 <= i < |b|
        ensures IsDigit(s[2 * i], b[i] / 16) && IsDigit(s[2 * i + 1], b[i] % 16)
      {
        if i > 0 {
          assert s[2..][2 * (i - 1)] == s[2 * i] && s[2..][2 * (i - 1) + 1] == s[2 * i + 1] && b[1..][i - 1] == b[i];
        }
      }
    }
    if Spells(s, b) {
      assert IsDigit(s[2 * 0], b[0] / 16) && IsDigit(s[2 * 0 + 1], b[0] % 16);
      forall i | 0 <= i < |b[1..]|
        ensures IsDigit(s[2..][2 * i], b[1..][i] / 16) && IsDigit(s[2..][2 * i + 1], b[1..][i] % 16)
      {
        assert IsDigit(s[2 * (i + 1)], b[i + 1] / 16) && IsDigit(s[2 * (i + 1) + 1], b[i + 1] % 16);
      }
    }
  }

  lemma {:induction false} HexRoundTrip(b: Bytes)
    ensures HexDecode(Selection.Hex(b)) == Some(b)
  {
    if b != [] {
      HexRoundTrip(b[1..]);
      var h := Selection.Hex(b);
      assert h[2..] == Selection.Hex(b[1..]);
      assert b == [b[0]] + b[1..];
    }
  }

  function Sha256HexTo32(ops: TextOps, s: Bytes): (r: Option<Bytes>)
    ensures r.Some? ==> |r.value| == 32
  {
    var b := HexDecode(ops.trim(s));
    if b.None? || |b.value| != 32 then None else b
  }

  /** A stored checksum in clean lower-case hexadecimal reaches the device as the digest itself. */
  lemma StoredChecksumsDecode(ops: TextOps, digest: Bytes)
    requires |digest| == 32 && ops.trim(Selection.Hex(digest)) == Selection.Hex(digest)
    ensures Sha256HexTo32(ops, Selection.Hex(digest)) == Some(digest)
  {
    HexRoundTrip(digest);
  }
}
