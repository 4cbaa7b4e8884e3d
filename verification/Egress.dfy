// Routing of the sidecar's egress (handleEgress, firstHeader and
// stripReservedHeaders in pkg/sidecar/egress.go).
module Egress {
  import opened Wire
  import Subjects

  const HEADER_SVCID := "x-nats-svcid"
  const HEADER_MODE := "x-nats-mode"
  const HEADER_TARGET_NID := "x-nats-target-nid"
  const RESERVED_PREFIX := "x-nats-"
  const MODE_UNARY := "unary"
  const MODE_STREAMING := "streaming"

  function LowerChar(c: char): char {
    if 'A' <= c <= 'Z' then c - 'A' + 'a' else c
  }

  // strings.ToLower on ASCII keys.
  function Lower(s: string): string {
    seq(|s|, i requires 0 <= i < |s| => LowerChar(s[i]))
  }

  predicate Reserved(key: string) { RESERVED_PREFIX <= Lower(key) }

  /** A key is reserved whose first seven letters are those of x-nats-, in upper or lower
      case. */
  lemma ReservedExactly(key: string)
    ensures Reserved(key) <==>
              |key| >= 7 && forall i :: 0 <= i < 7 ==> key[i] == "x-nats-"[i] || key[i] == "X-NATS-"[i]
  {
    if |key| >= 7 {
      forall i | 0 <= i < 7
        ensures Lower(key)[i] == "x-nats-"[i] <==> key[i] == "x-nats-"[i] || key[i] == "X-NATS-"[i]
      {
        LowerChars(key[i], i);
      }
    }
  }

  // One letter of the prefix.
  lemma LowerChars(c: char, i: nat)
    requires i < 7
    ensures LowerChar(c) == "x-nats-"[i] <==> c == "x-nats-"[i] || c == "X-NATS-"[i]
  {}

  // The first value, or nothing.
  function FirstHeader(md: MD, name: string): (value: string)
    ensures Values(md, name) != [] ==> value == Values(md, name)[0]
    ensures Values(md, name) == [] ==> value == ""
  {
    if name in md && md[name] != [] then md[name][0] else ""
  }

  method StripReservedHeaders(md: MD) returns (out: MD)
    ensures forall k :: k in out <==> k in md && !Reserved(k)
    ensures forall k :: k in out ==> out[k] == md[k]
  {
    out := map[];
    var left := md;
    while left != map[]
      invariant left.Keys <= md.Keys && forall k :: k in left ==> left[k] == md[k]
      invariant forall k :: k in out <==> k in md && k !in left && !Reserved(k)
      invariant forall k :: k in out ==> out[k] == md[k]
      decreases |left|
    {
      var k :| k in left;
      if !Reserved(k) {
        out := out[k := left[k]];
      }
      left := left - {k};
    }
  }

  // Where a call goes: one request on a subject, or a stream of frames pumped there.
  datatype Route =
    | UnaryOn(subject: string, metadata: MD)
    | StreamOn(subject: string, metadata: MD)
    | Refused(code: nat)

  method HandleEgress(fullMethod: string, md: MD) returns (route: Route)
    ensures route.Refused? <==>
              || FirstHeader(md, "x-nats-svcid") == ""
              || FirstHeader(md, "x-nats-mode") !in {"", "unary", "streaming"}
              || (FirstHeader(md, "x-nats-mode") == "streaming" && FirstHeader(md, "x-nats-target-nid") == "")
    ensures route.Refused? ==> route.code == 3
    ensures route.StreamOn? ==>
              && FirstHeader(md, "x-nats-mode") == "streaming"
              && route.subject == Subjects.ModernStreamSubject(
                                    FirstHeader(md, "x-nats-svcid"), FirstHeader(md, "x-nats-target-nid"), fullMethod)
    ensures route.UnaryOn? ==>
              && FirstHeader(md, "x-nats-mode") != "streaming"
              && route.subject == Subjects.ModernUnarySubject(FirstHeader(md, "x-nats-svcid"), fullMethod)
    ensures !route.Refused? ==>
              && (forall k :: k in route.metadata <==> k in md && !Reserved(k))
              && (forall k :: k in route.metadata ==> route.metadata[k] == md[k])
  {
    var svcid := FirstHeader(md, HEADER_SVCID);
    if svcid == "" {
      return Refused(CODE_INVALID_ARGUMENT);
    }
    var mode := FirstHeader(md, HEADER_MODE);
    if mode == "" {
      mode := MODE_UNARY;
    }
    var forwarded := StripReservedHeaders(md);
    if mode == MODE_UNARY {
      route := UnaryOn(Subjects.ModernUnarySubject(svcid, fullMethod), forwarded);
    } else if mode == MODE_STREAMING {
      var nid := FirstHeader(md, HEADER_TARGET_NID);
      if nid == "" {
        return Refused(CODE_INVALID_ARGUMENT);
      }
      route := StreamOn(Subjects.ModernStreamSubject(svcid, nid, fullMethod), forwarded);
    } else {
      route := Refused(CODE_INVALID_ARGUMENT);
    }
  }
}
