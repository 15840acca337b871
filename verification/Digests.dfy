/** SHA-256 over `prevHash ++ canonical JSON`, internal/audit/hashchain.go. The
    hex-encoded SHA-256 itself is a parameter `sha`; what is assumed of it is
    stated where it is needed: its output is 64 hex characters, and it does not
    collide on the inputs that the rows at hand actually hash. */
module Digests {
  import opened Json
  import opened HashChain

  function Members(p: Payload): seq<Member>
  {
    var f := p.fields;
    [Text("event_id", p.eventId), Number("ts_unix_nano", p.ts), Text("trace_id", f.traceId),
     Text("span_id", f.spanId), Text("session_id", f.sessionId), Text("request_id", f.requestId),
     Text("client_id", f.clientId), Text("method", f.verb), Text("tool_name", f.toolName),
     Text("upstream_id", f.upstreamId), Text("decision", f.decision), Text("policy_rule", f.policyRule),
     Text("reason", f.reason), Text("arguments_json", f.argumentsJson), Text("response_json", f.responseJson),
     Text("error_json", f.errorJson), Number("duration_us", f.durationUs)]
  }

  function CanonicalizeEvent(p: Payload): string
  {
    EncodeObject(Members(p))
  }

  function ComputeHash(sha: string -> string): Digest
  {
    (prevHash: string, p: Payload) => sha(prevHash + CanonicalizeEvent(p))
  }

  predicate IsHex(s: string)
  {
    forall i :: 0 <= i < |s| ==> '0' <= s[i] <= '9' || 'a' <= s[i] <= 'f'
  }

  /** What hex.EncodeToString of a 32-byte sum looks like. */
  ghost predicate HexDigest(sha: string -> string)
  {
    forall x :: |sha(x)| == 64 && IsHex(sha(x))
  }

  function Preimage(e: StoredEvent): string
  {
    e.prevHash + CanonicalizeEvent(e.data)
  }

  /** No two different hash inputs among these rows have the same SHA-256. */
  ghost predicate NoShaCollision(sha: string -> string, s: seq<StoredEvent>)
  {
    forall a, b :: a in s && b in s && sha(Preimage(a)) == sha(Preimage(b)) ==> Preimage(a) == Preimage(b)
  }

  predicate PlainPayload(p: Payload)
  {
    forall i :: 0 <= i < |Members(p)| ==> PlainMember(Members(p)[i])
  }

  /** Each name with the value of its own field, in the order in which the fields are
      hashed. */
  lemma {:induction false} CanonicalMembers(p: Payload)
    requires PlainPayload(p)
    ensures CanonicalizeEvent(p) == "{" + (Joined(Members(p)) + "}")
    ensures |Members(p)| == 17
    ensures Members(p)[0] == Text("event_id", p.eventId) && Members(p)[1] == Number("ts_unix_nano", p.ts)
    ensures Members(p)[2] == Text("trace_id", p.fields.traceId) && Members(p)[3] == Text("span_id", p.fields.spanId)
    ensures Members(p)[4] == Text("session_id", p.fields.sessionId)
    ensures Members(p)[5] == Text("request_id", p.fields.requestId)
    ensures Members(p)[6] == Text("client_id", p.fields.clientId) && Members(p)[7] == Text("method", p.fields.verb)
    ensures Members(p)[8] == Text("tool_name", p.fields.toolName)
    ensures Members(p)[9] == Text("upstream_id", p.fields.upstreamId)
    ensures Members(p)[10] == Text("decision", p.fields.decision)
    ensures Members(p)[11] == Text("policy_rule", p.fields.policyRule)
    ensures Members(p)[12] == Text("reason", p.fields.reason)
    ensures Members(p)[13] == Text("arguments_json", p.fields.argumentsJson)
    ensures Members(p)[14] == Text("response_json", p.fields.responseJson)
    ensures Members(p)[15] == Text("error_json", p.fields.errorJson)
    ensures Members(p)[16] == Number("duration_us", p.fields.durationUs)
  {
    PlainObject(Members(p));
  }

  lemma CanonicalInjective(p: Payload, q: Payload)
    requires CanonicalizeEvent(p) == CanonicalizeEvent(q)
    ensures p == q
  {
    SameMemberNames(p, q);
    ObjectInjective(Members(p), Members(q));
    FieldsFromMembers(p, q);
  }

  lemma SameMemberNames(p: Payload, q: Payload)
    ensures SameShape(Members(p), Members(q))
  {
  }

  lemma FieldsFromMembers(p: Payload, q: Payload)
    requires Members(p) == Members(q)
    ensures p == q
  {
  }

  /** prevHash ++ canonical JSON can be split: hex stops where the brace is. */
  lemma PreimageInjective(a: StoredEvent, b: StoredEvent)
    requires IsHex(a.prevHash) && IsHex(b.prevHash)
    requires Preimage(a) == Preimage(b)
    ensures a.prevHash == b.prevHash && a.data == b.data
  {
    HexStops(a, b);
    HexStops(b, a);
    SplitAt(a.prevHash, CanonicalizeEvent(a.data), b.prevHash, CanonicalizeEvent(b.data));
    CanonicalInjective(a.data, b.data);
  }

  lemma HexStops(a: StoredEvent, b: StoredEvent)
    requires IsHex(b.prevHash) && Preimage(a) == Preimage(b)
    ensures |a.prevHash| >= |b.prevHash|
  {
    assert Preimage(a)[|a.prevHash|] == CanonicalizeEvent(a.data)[0] == '{';
    assert forall i :: 0 <= i < |b.prevHash| ==> Preimage(b)[i] == b.prevHash[i];
  }

  /** SHA-256 meets what the chain needs of a digest, as long as it does not
      collide on the inputs at hand: prevHash is "" or hex, the canonical JSON
      starts with a brace, so the two can be told apart inside the input. */
  lemma ShaIsADigest(sha: string -> string, s: seq<StoredEvent>)
    requires HexDigest(sha) && NoShaCollision(sha, s)
    requires forall e :: e in s ==> IsHex(e.prevHash)
    ensures NeverEmpty(ComputeHash(sha)) && CollisionFree(ComputeHash(sha), s)
  {
    var hash := ComputeHash(sha);
    forall prev, p ensures hash(prev, p) != "" {
      assert |sha(prev + CanonicalizeEvent(p))| == 64;
    }
    forall a, b | a in s && b in s ensures !Collides(hash, a, b) {
      assert sha(Preimage(a)) == hash(a.prevHash, a.data) && sha(Preimage(b)) == hash(b.prevHash, b.data);
      if Preimage(a) == Preimage(b) {
        PreimageInjective(a, b);
      }
    }
  }

  /** Every row of a verified log carries a hex (or empty) previous hash. */
  lemma VerifiedPrevIsHex(sha: string -> string, s: seq<StoredEvent>)
    requires HexDigest(sha) && Verified(ComputeHash(sha), "", s)
    ensures forall e :: e in s ==> IsHex(e.prevHash)
  {
    forall e | e in s ensures IsHex(e.prevHash) {
      var i :| 0 <= i < |s| && s[i] == e;
      assert Linked(ComputeHash(sha), "", s, i);
      if i > 0 {
        assert Linked(ComputeHash(sha), "", s, i - 1);
        assert IsHex(sha(Preimage(s[i - 1])));
      }
    }
  }

  /** The tip fixes the history, stated of SHA-256 itself. */
  lemma ShaTipFixesHistory(sha: string -> string, a: seq<StoredEvent>, b: seq<StoredEvent>)
    requires HexDigest(sha) && NoShaCollision(sha, a + b)
    requires Verified(ComputeHash(sha), "", a) && Verified(ComputeHash(sha), "", b)
    requires TipOf("", a) == TipOf("", b)
    ensures a == b
  {
    VerifiedPrevIsHex(sha, a);
    VerifiedPrevIsHex(sha, b);
    ShaIsADigest(sha, a + b);
    TipFixesHistory(ComputeHash(sha), a, b);
  }
}
