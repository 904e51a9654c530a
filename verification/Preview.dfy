/**
 * Preview host names: the printer, the parser and the browser's rewriter
 * (control-plane/src/previews/preview.ts:34-93; control-plane/src/client/sandbox/sandbox.tsx:316-329).
 */
module Preview {
  import opened Decimal
  import opened Prelude
  import opened Text

  // ---- The printer ---------------------------------------------------------------------------

  /** [a-z0-9-] */
  predicate LabelChar(c: char)
  {
    'a' <= c <= 'z' || IsDigit(c) || c == '-'
  }

  predicate LabelChars(s: string)
  {
    forall i | 0 <= i < |s| :: LabelChar(s[i])
  }

  function SanitizeLabel(sandboxId: string): (r: string)
    ensures |r| == |sandboxId| && LabelChars(r)
    ensures forall i | 0 <= i < |r| :: r[i] == Lower(sandboxId)[i] || (r[i] == '-' && !LabelChar(Lower(sandboxId)[i]))
  {
    var lowered := Lower(sandboxId);
    if lowered != "" && LabelChars(lowered) then lowered
    else seq(|lowered|, i requires 0 <= i < |lowered| => if LabelChar(lowered[i]) then lowered[i] else '-')
  }

  function PreviewLabel(sandboxId: string, port: string): string
  {
    SanitizeLabel(sandboxId) + "-p" + port
  }

  function PreviewHost(domain: string, sandboxId: string, port: nat): string
  {
    PreviewLabel(sandboxId, Print(port)) + "." + domain
  }

  predicate ValidPort(port: nat)
  {
    1 <= port <= 65535
  }

  // ---- The parser ----------------------------------------------------------------------------

  datatype Target = Target(sandboxId: string, port: nat)

  /** /:[0-9]+$/ matches. */
  predicate EndsInPort(s: string)
  {
    var colon := LastIndexOf(s, ":", |s|);
    colon.Some? && colon.value + 1 < |s| && AllDigits(s[colon.value + 1..])
  }

  function StripPort(s: string): string
  {
    if EndsInPort(s) then s[..LastIndexOf(s, ":", |s|).value] else s
  }

  /** /^\d{1,5}$/ */
  predicate PortText(s: string)
  {
    1 <= |s| <= 5 && AllDigits(s)
  }

  function ParseLabel(dnsLabel: string): Option<Target>
  {
    var at := LastIndexOf(dnsLabel, "-p", |dnsLabel|);
    if at.None? || at.value == 0 then None else
    var portText := dnsLabel[at.value + 2..];
    if !PortText(portText) || !ValidPort(Value(portText)) then None
    else Some(Target(dnsLabel[..at.value], Value(portText)))
  }

  function ParsePreviewHost(domain: string, host: Option<string>): Option<Target>
  {
    if host.None? then None else
    var withoutPort := StripPort(Lower(host.value));
    var suffix := "." + Lower(domain);
    if !EndsWith(withoutPort, suffix) then None
    else ParseLabel(withoutPort[..|withoutPort| - |suffix|])
  }

  // ---- The rewriter --------------------------------------------------------------------------

  /** Digits from a position on. */
  function DigitRun(s: string, from: nat): (n: nat)
    requires from <= |s|
    ensures from + n <= |s| && forall i | from <= i < from + n :: IsDigit(s[i])
    ensures from + n < |s| ==> !IsDigit(s[from + n])
    decreases |s| - from
  {
    if from < |s| && IsDigit(s[from]) then 1 + DigitRun(s, from + 1) else 0
  }

  /** /-p\d{1,5}\./ matches at `at`. */
  predicate MarkerAt(s: string, at: nat)
  {
    && at + 2 <= |s| && s[at] == '-' && s[at + 1] == 'p'
    && 1 <= DigitRun(s, at + 2) <= 5
    && at + 2 + DigitRun(s, at + 2) < |s| && s[at + 2 + DigitRun(s, at + 2)] == '.'
  }

  /** The leftmost match at or after `from`. */
  function FirstMarker(s: string, from: nat): (r: Option<nat>)
    requires from <= |s|
    ensures r.Some? ==> from <= r.value && MarkerAt(s, r.value) && forall i | from <= i < r.value :: !MarkerAt(s, i)
    ensures r.None? ==> forall i | from <= i :: !MarkerAt(s, i)
    decreases |s| - from
  {
    if from == |s| then None else if MarkerAt(s, from) then Some(from) else FirstMarker(s, from + 1)
  }

  /** /^[a-z0-9-]+-p\d{1,5}\./ matches. */
  predicate PreviewShaped(host: string)
  {
    exists at | 1 <= at <= |host| :: LabelChars(host[..at]) && MarkerAt(host, at)
  }

  function WithPreviewPort(host: string, port: string): Option<string>
  {
    var trimmed := Trim(port);
    if !PortText(trimmed) || !ValidPort(Value(trimmed)) || !PreviewShaped(host) then None else
    var at := FirstMarker(host, 0);
    if at.None? then Some(host)
    else Some(host[..at.value] + "-p" + trimmed + "." + host[at.value + 3 + DigitRun(host, at.value + 2)..])
  }

  // ---- Text facts ----------------------------------------------------------------------------

  lemma LowerKeeps(s: string)
    requires forall i | 0 <= i < |s| :: !('A' <= s[i] <= 'Z')
    ensures Lower(s) == s
  {
  }

  lemma LowerConcat(a: string, b: string)
    ensures Lower(a + b) == Lower(a) + Lower(b)
  {
  }

  /** A printed port has one to five digits. */
  lemma PrintedPort(port: nat)
    requires ValidPort(port)
    ensures PortText(Print(port)) && Value(Print(port)) == port && Canonical(Print(port))
  {
    PrintedValue(port);
    assert Power10(5) == 100000 by {
      assert Power10(2) == 100;
      assert Power10(4) == 100 * Power10(2);
    }
    PrintedLength(port, 5, 100000);
  }

  /** The label's characters need no lowering and hold neither a dot nor a colon. */
  lemma LabelText(sandboxId: string, port: string)
    requires AllDigits(port)
    ensures Lower(PreviewLabel(sandboxId, port)) == PreviewLabel(sandboxId, port)
    ensures LabelChars(PreviewLabel(sandboxId, port))
  {
    var dnsLabel := PreviewLabel(sandboxId, port);
    forall i | 0 <= i < |dnsLabel| ensures LabelChar(dnsLabel[i]) {
      if i >= |sandboxId| + 2 {
        assert dnsLabel[i] == port[i - |sandboxId| - 2];
      }
    }
    LowerKeeps(dnsLabel);
  }

  /** Digits hold no marker, so the last "-p" of a label is the port's, whatever the id contains. */
  lemma LastMarkerIsThePorts(id: string, port: string)
    requires AllDigits(port)
    ensures LastIndexOf(id + "-p" + port, "-p", |id + "-p" + port|) == Some(|id|)
  {
    var dnsLabel := id + "-p" + port;
    assert dnsLabel[|id|..|id| + 2] == "-p";
    assert OccursAt(dnsLabel, "-p", |id|);
    forall i | |id| < i < |dnsLabel| ensures !OccursAt(dnsLabel, "-p", i) {
      if i + 2 <= |dnsLabel| {
        assert dnsLabel[i..i + 2][0] == dnsLabel[i];
        assert i == |id| + 1 || dnsLabel[i] == port[i - |id| - 2];
      }
    }
  }

  /** Parsing a label splits it at the port's marker. */
  lemma LabelParses(id: string, port: string)
    requires id != "" && PortText(port) && ValidPort(Value(port))
    ensures ParseLabel(id + "-p" + port) == Some(Target(id, Value(port)))
  {
    LastMarkerIsThePorts(id, port);
    var dnsLabel := id + "-p" + port;
    assert dnsLabel[|id| + 2..] == port && dnsLabel[..|id|] == id;
  }

  // ---- Stripping a listener's port -----------------------------------------------------------

  lemma LastColon(before: string, after: string)
    requires forall i | 0 <= i < |after| :: after[i] != ':'
    ensures LastIndexOf(before + ":" + after, ":", |before + ":" + after|) == Some(|before|)
  {
    var s := before + ":" + after;
    assert s[|before|..|before| + 1] == ":";
    assert OccursAt(s, ":", |before|);
    forall i | |before| < i < |s| ensures !OccursAt(s, ":", i) {
      assert s[i..i + 1][0] == s[i] == after[i - |before| - 1];
    }
  }

  lemma StripsAppendedPort(host: string, digits: string)
    requires digits != "" && AllDigits(digits)
    ensures StripPort(host + ":" + digits) == host
  {
    LastColon(host, digits);
    assert (host + ":" + digits)[|host| + 1..] == digits;
  }

  /** A text ends in a port exactly when it is something, a colon and digits. */
  lemma EndsInPortSplits(s: string) returns (before: string, digits: string)
    requires EndsInPort(s)
    ensures s == before + ":" + digits && digits != "" && AllDigits(digits)
    ensures StripPort(s) == before
  {
    var colon := LastIndexOf(s, ":", |s|).value;
    before, digits := s[..colon], s[colon + 1..];
    assert s[colon..colon + 1] == ":";
  }

  function Colons(s: string): nat
  {
    if s == "" then 0 else Colons(s[..|s| - 1]) + if s[|s| - 1] == ':' then 1 else 0
  }

  lemma {:induction false} ColonsConcat(a: string, b: string)
    ensures Colons(a + b) == Colons(a) + Colons(b)
  {
    if b == "" {
      assert a + b == a;
    } else {
      assert (a + b)[..|a + b| - 1] == a + b[..|b| - 1];
      ColonsConcat(a, b[..|b| - 1]);
    }
  }

  lemma {:induction false} NoColons(s: string)
    requires forall i | 0 <= i < |s| :: s[i] != ':'
    ensures Colons(s) == 0
  {
    if s != "" {
      NoColons(s[..|s| - 1]);
    }
  }

  /** With no colon before the domain, the host ends in a port exactly when the domain does. */
  lemma HostEndsInPort(front: string, domain: string)
    requires forall i | 0 <= i < |front| :: front[i] != ':'
    ensures EndsInPort(front + domain) <==> EndsInPort(domain)
  {
    if EndsInPort(domain) {
      var before, digits := EndsInPortSplits(domain);
      assert front + domain == (front + before) + ":" + digits;
      ColonAndDigits(front + before, digits);
    }
    if EndsInPort(front + domain) {
      var before, digits := EndsInPortSplits(front + domain);
      assert (front + domain)[|before|] == ':';
      assert domain == (front + domain)[|front|..];
      assert domain == before[|front|..] + ":" + digits;
      ColonAndDigits(before[|front|..], digits);
    }
  }

  lemma ColonAndDigits(before: string, digits: string)
    requires digits != "" && AllDigits(digits)
    ensures EndsInPort(before + ":" + digits)
  {
    LastColon(before, digits);
    assert (before + ":" + digits)[|before| + 1..] == digits;
  }

  /** Stripping a port takes a colon away. */
  lemma StrippedColons(s: string)
    requires EndsInPort(s)
    ensures Colons(StripPort(s)) == Colons(s) - 1
  {
    var before, digits := EndsInPortSplits(s);
    assert s == before + (":" + digits);
    ColonsConcat(before, ":" + digits);
    ColonsConcat(":", digits);
    NoColons(digits);
    assert ":"[..0] == "";
  }

  lemma SuffixColons(s: string, suffix: string)
    requires EndsWith(s, suffix)
    ensures Colons(s) >= Colons(suffix)
  {
    assert s == s[..|s| - |suffix|] + suffix;
    ColonsConcat(s[..|s| - |suffix|], suffix);
  }

  /** A domain that ends in a port is stripped of it, and then no host has the domain as its suffix. */
  lemma StrippedHostHasNoSuffix(front: string, domain: string)
    requires forall i | 0 <= i < |front| :: front[i] != ':'
    requires EndsInPort(domain)
    ensures !EndsWith(StripPort(front + "." + domain), "." + domain)
  {
    var host := front + "." + domain;
    HostEndsInPort(front + ".", domain);
    StrippedColons(host);
    ColonsConcat(front + ".", domain);
    ColonsConcat(".", domain);
    NoColons(front + ".");
    NoColons(".");
    if EndsWith(StripPort(host), "." + domain) {
      SuffixColons(StripPort(host), "." + domain);
    }
  }

  // ---- Main results --------------------------------------------------------------------------

  lemma SplitSuffix(front: string, suffix: string)
    ensures EndsWith(front + suffix, suffix) && (front + suffix)[..|front + suffix| - |suffix|] == front
  {
    assert (front + suffix)[|front|..|front| + |suffix|] == suffix;
  }

  /** What the parser makes of a label under the domain, once no port is left to strip. */
  lemma ParsesStripped(domain: string, host: string, id: string, port: string)
    requires StripPort(Lower(host)) == id + "-p" + port + ("." + Lower(domain))
    requires id != "" && PortText(port) && ValidPort(Value(port))
    ensures ParsePreviewHost(domain, Some(host)) == Some(Target(id, Value(port)))
  {
    SplitSuffix(id + "-p" + port, "." + Lower(domain));
    LabelParses(id, port);
  }

  /** A label's host, lowered. */
  lemma LowerHost(dnsLabel: string, domain: string, tail: string)
    requires LabelChars(dnsLabel) && forall i | 0 <= i < |tail| :: !('A' <= tail[i] <= 'Z')
    ensures Lower(dnsLabel + "." + domain + tail) == dnsLabel + "." + Lower(domain) + tail
  {
    LowerConcat(dnsLabel + "." + domain, tail);
    LowerConcat(dnsLabel + ".", domain);
    LowerKeeps(dnsLabel + ".");
    LowerKeeps(tail);
  }

  lemma AppendsInAnyOrder(a: string, b: string, c: string)
    ensures a + b + c == a + (b + c)
  {
  }

  lemma ListenerHostStripped(domain: string, dnsLabel: string, listener: string)
    requires LabelChars(dnsLabel) && listener != "" && AllDigits(listener)
    ensures StripPort(Lower(dnsLabel + "." + domain + (":" + listener))) == dnsLabel + ("." + Lower(domain))
  {
    var tail, host := ":" + listener, dnsLabel + "." + Lower(domain);
    LowerHost(dnsLabel, domain, tail);
    StripsAppendedPort(host, listener);
    AppendsInAnyOrder(host, ":", listener);
    AppendsInAnyOrder(dnsLabel, ".", Lower(domain));
  }

  /** A printed label, in whatever decimal text its port is, parses under the domain with any listener port. */
  lemma ParsesWithListenerPort(domain: string, sandboxId: string, port: string, listener: string)
    requires sandboxId != "" && PortText(port) && ValidPort(Value(port))
    requires listener != "" && AllDigits(listener)
    ensures ParsePreviewHost(domain, Some(PreviewLabel(sandboxId, port) + "." + domain + (":" + listener)))
         == Some(Target(SanitizeLabel(sandboxId), Value(port)))
  {
    LabelText(sandboxId, port);
    ListenerHostStripped(domain, PreviewLabel(sandboxId, port), listener);
    ParsesStripped(domain, PreviewLabel(sandboxId, port) + "." + domain + (":" + listener),
                   SanitizeLabel(sandboxId), port);
  }

  /** A printed label's host, lowered, is stripped only of a port its domain ends in. */
  lemma BareHostStripped(domain: string, sandboxId: string, port: string)
    requires AllDigits(port)
    ensures var dnsLabel := PreviewLabel(sandboxId, port);
            var stripped := StripPort(Lower(dnsLabel + "." + domain));
            if EndsInPort(Lower(domain)) then !EndsWith(stripped, "." + Lower(domain))
            else stripped == dnsLabel + ("." + Lower(domain))
  {
    var dnsLabel := PreviewLabel(sandboxId, port);
    LabelText(sandboxId, port);
    LowerHost(dnsLabel, domain, "");
    assert dnsLabel + "." + domain + "" == dnsLabel + "." + domain;
    var host := dnsLabel + "." + Lower(domain);
    assert host + "" == host;
    assert host == dnsLabel + ("." + Lower(domain));
    if EndsInPort(Lower(domain)) {
      StrippedHostHasNoSuffix(dnsLabel, Lower(domain));
    } else {
      HostEndsInPort(dnsLabel + ".", Lower(domain));
    }
  }

  /** Without a listener port it parses exactly when the domain does not itself end in one. */
  lemma ParsesBare(domain: string, sandboxId: string, port: string)
    requires sandboxId != "" && PortText(port) && ValidPort(Value(port))
    ensures ParsePreviewHost(domain, Some(PreviewLabel(sandboxId, port) + "." + domain))
         == if EndsInPort(Lower(domain)) then None else Some(Target(SanitizeLabel(sandboxId), Value(port)))
  {
    BareHostStripped(domain, sandboxId, port);
    if !EndsInPort(Lower(domain)) {
      ParsesStripped(domain, PreviewLabel(sandboxId, port) + "." + domain, SanitizeLabel(sandboxId), port);
    }
  }

  /**
   * parsePreviewHost inverts previewHost for every non-empty id, up to sanitizing, and every port:
   * with a listener port always, without one exactly when the domain does not end in ":digits".
   */
  lemma ParseInvertsPreviewHost(domain: string, sandboxId: string, port: nat, listener: string)
    requires sandboxId != "" && ValidPort(port)
    requires listener != "" && AllDigits(listener)
    ensures ParsePreviewHost(domain, Some(PreviewHost(domain, sandboxId, port) + (":" + listener)))
         == Some(Target(SanitizeLabel(sandboxId), port))
    ensures ParsePreviewHost(domain, Some(PreviewHost(domain, sandboxId, port)))
            == Some(Target(SanitizeLabel(sandboxId), port))
       <==> !EndsInPort(Lower(domain))
  {
    PrintedPort(port);
    ParsesWithListenerPort(domain, sandboxId, Print(port), listener);
    ParsesBare(domain, sandboxId, Print(port));
  }

  /** What the parser accepts, whoever wrote it: exactly an id, "-p", a port's digits and the domain. */
  lemma AcceptsExactly(domain: string, host: string, target: Target)
    ensures ParsePreviewHost(domain, Some(host)) == Some(target) <==>
              && target.sandboxId != "" && ValidPort(target.port)
              && exists port: string :: PortText(port) && Value(port) == target.port
                   && StripPort(Lower(host)) == target.sandboxId + "-p" + port + ("." + Lower(domain))
  {
    if ParsePreviewHost(domain, Some(host)) == Some(target) {
      var port := AcceptedSplits(domain, host, target);
    }
    forall port: string |
      && target.sandboxId != "" && ValidPort(target.port) && PortText(port) && Value(port) == target.port
      && StripPort(Lower(host)) == target.sandboxId + "-p" + port + ("." + Lower(domain))
      ensures ParsePreviewHost(domain, Some(host)) == Some(target)
    {
      ParsesStripped(domain, host, target.sandboxId, port);
    }
  }

  lemma AcceptedSplits(domain: string, host: string, target: Target) returns (port: string)
    requires ParsePreviewHost(domain, Some(host)) == Some(target)
    ensures target.sandboxId != "" && ValidPort(target.port) && PortText(port) && Value(port) == target.port
    ensures StripPort(Lower(host)) == target.sandboxId + "-p" + port + ("." + Lower(domain))
  {
    var stripped, suffix := StripPort(Lower(host)), "." + Lower(domain);
    var dnsLabel := stripped[..|stripped| - |suffix|];
    var at := LastIndexOf(dnsLabel, "-p", |dnsLabel|).value;
    port := dnsLabel[at + 2..];
    assert dnsLabel[at..at + 2] == "-p";
    assert dnsLabel == target.sandboxId + "-p" + port;
    assert stripped == dnsLabel + suffix;
  }

  // ---- The rewriter against the printer ------------------------------------------------------

  /** A run of digits stops at or before any character that is no digit. */
  lemma {:induction false} RunStopsAt(s: string, from: nat, at: nat)
    requires from <= at < |s| && !IsDigit(s[at])
    ensures from + DigitRun(s, from) <= at
    decreases at - from
  {
    if from < at && IsDigit(s[from]) {
      RunStopsAt(s, from + 1, at);
    }
  }

  lemma {:induction false} RunReaches(s: string, from: nat, at: nat)
    requires from <= at <= |s| && forall i | from <= i < at :: IsDigit(s[i])
    ensures from + DigitRun(s, from) >= at
    decreases at - from
  {
    if from < at {
      RunReaches(s, from + 1, at);
    }
  }

  /** A printed host with its parts' positions: no dot comes before the one that ends the label. */
  function HostText(id: string, port: string, domain: string): string
  {
    id + "-p" + port + "." + domain
  }

  lemma HostPositions(id: string, port: string, domain: string)
    requires LabelChars(id) && PortText(port)
    ensures var host, dot := HostText(id, port, domain), |id| + 2 + |port|;
            && dot < |host| && host[dot] == '.' && host[|id|] == '-' && host[|id| + 1] == 'p'
            && (forall k | 0 <= k < |id| :: host[k] == id[k])
            && (forall k | |id| + 2 <= k < dot :: IsDigit(host[k]))
            && (forall k | 0 <= k < dot :: host[k] != '.')
            && DigitRun(host, |id| + 2) == |port|
  {
    var host, dot := HostText(id, port, domain), |id| + 2 + |port|;
    forall k | |id| + 2 <= k < dot ensures IsDigit(host[k]) {
      assert host[k] == port[k - |id| - 2];
    }
    RunReaches(host, |id| + 2, dot);
    RunStopsAt(host, |id| + 2, dot);
  }

  /** Inside the id no marker matches: its digits would have to run over the port's "p". */
  lemma NoEarlierMarker(id: string, port: string, domain: string, i: nat)
    requires LabelChars(id) && PortText(port) && i < |id|
    ensures !MarkerAt(HostText(id, port, domain), i)
  {
    var host := HostText(id, port, domain);
    HostPositions(id, port, domain);
    if i + 2 <= |id| + 1 {
      RunStopsAt(host, i + 2, |id| + 1);
    }
  }

  /** In a printed host the first marker is the port's. */
  lemma MarkerIsThePorts(id: string, port: string, domain: string)
    requires LabelChars(id) && PortText(port)
    ensures FirstMarker(HostText(id, port, domain), 0) == Some(|id|)
    ensures MarkerAt(HostText(id, port, domain), |id|)
  {
    HostPositions(id, port, domain);
    assert MarkerAt(HostText(id, port, domain), |id|);
    forall i | 0 <= i < |id| ensures !MarkerAt(HostText(id, port, domain), i) {
      NoEarlierMarker(id, port, domain, i);
    }
  }

  lemma PrintedIsShaped(id: string, port: string, domain: string)
    requires LabelChars(id) && PortText(port) && id != ""
    ensures PreviewShaped(HostText(id, port, domain))
  {
    MarkerIsThePorts(id, port, domain);
    var host := HostText(id, port, domain);
    assert host[..|id|] == id;
    assert LabelChars(host[..|id|]);
  }

  /** The rewriter on a printed host. */
  lemma RewritesPrinted(id: string, port: string, domain: string, text: string)
    requires LabelChars(id) && PortText(port) && id != ""
    ensures WithPreviewPort(HostText(id, port, domain), text) ==
            if PortText(Trim(text)) && ValidPort(Value(Trim(text))) then Some(HostText(id, Trim(text), domain))
            else None
  {
    PrintedIsShaped(id, port, domain);
    MarkerIsThePorts(id, port, domain);
    HostPositions(id, port, domain);
    var host := HostText(id, port, domain);
    assert host[..|id|] == id;
    assert host[|id| + 3 + |port|..] == domain;
  }

  /**
   * The browser's rewrite of a printed host: refused exactly for a text that is no port; otherwise
   * the same host with the text as its port. That is what printing again gives exactly when the
   * text has no leading zeros, and it addresses the same sandbox and the asked port either way.
   */
  lemma RewriteAgainstPrinter(domain: string, sandboxId: string, port: nat, text: string)
    requires sandboxId != "" && ValidPort(port)
    ensures var rewritten := WithPreviewPort(PreviewHost(domain, sandboxId, port), text);
            && (rewritten.Some? <==> PortText(Trim(text)) && ValidPort(Value(Trim(text))))
            && (rewritten.Some? ==>
                  && (rewritten.value == PreviewHost(domain, sandboxId, Value(Trim(text))) <==> Canonical(Trim(text)))
                  && (!EndsInPort(Lower(domain)) ==>
                        ParsePreviewHost(domain, rewritten)
                            == Some(Target(SanitizeLabel(sandboxId), Value(Trim(text))))))
  {
    var id, trimmed := SanitizeLabel(sandboxId), Trim(text);
    PrintedPort(port);
    assert PreviewHost(domain, sandboxId, port) == HostText(id, Print(port), domain);
    RewritesPrinted(id, Print(port), domain, text);
    if PortText(trimmed) && ValidPort(Value(trimmed)) {
      assert PreviewHost(domain, sandboxId, Value(trimmed)) == HostText(id, Print(Value(trimmed)), domain);
      SameHostSamePort(id, trimmed, Print(Value(trimmed)), domain);
      CanonicalExactly(trimmed);
      ParsesBare(domain, sandboxId, trimmed);
    }
  }

  lemma SameHostSamePort(id: string, a: string, b: string, domain: string)
    ensures HostText(id, a, domain) == HostText(id, b, domain) <==> a == b
  {
    var s, t := HostText(id, a, domain), HostText(id, b, domain);
    assert |s| == |id| + 2 + |a| + 1 + |domain| && |t| == |id| + 2 + |b| + 1 + |domain|;
    assert a == s[|id| + 2..|id| + 2 + |a|];
    assert b == t[|id| + 2..|id| + 2 + |b|];
  }

  /** "007" is accepted and kept, so the rewritten host is not the printed one. */
  lemma LeadingZerosAreKept(domain: string, sandboxId: string, port: nat)
    requires sandboxId != "" && ValidPort(port)
    ensures WithPreviewPort(PreviewHost(domain, sandboxId, port), "007")
            == Some(PreviewLabel(sandboxId, "007") + "." + domain)
    ensures WithPreviewPort(PreviewHost(domain, sandboxId, port), "007") != Some(PreviewHost(domain, sandboxId, 7))
  {
    assert Trim("007") == "007";
    assert "007"[..2] == "00" && "00"[..1] == "0" && "0"[..0] == "";
    assert Value("00") == 0 && Value("007") == 7;
    assert !Canonical("007");
    PrintedPort(port);
    RewritesPrinted(SanitizeLabel(sandboxId), Print(port), domain, "007");
    RewriteAgainstPrinter(domain, sandboxId, port, "007");
  }

  // ---- The rewriter on any host ----------------------------------------------------------------

  /** A marker is "-p", one to five digits and a dot. */
  lemma MarkerMeans(s: string, at: nat)
    requires at <= |s|
    ensures MarkerAt(s, at) <==>
              exists port: string, rest: string :: PortText(port) && s[at..] == HostText("", port, rest)
  {
    if MarkerAt(s, at) {
      MarkerSplits(s, at);
    }
    forall port: string, rest: string | PortText(port) && s[at..] == HostText("", port, rest) ensures MarkerAt(s, at) {
      HostPositions("", port, rest);
      var host, dot := s[at..], at + 2 + |port|;
      assert s[at] == host[0] && s[at + 1] == host[1] && s[dot] == host[2 + |port|];
      forall k | at + 2 <= k < dot ensures IsDigit(s[k]) {
        assert s[k] == host[k - at];
      }
      RunReaches(s, at + 2, dot);
      RunStopsAt(s, at + 2, dot);
    }
  }

  lemma SplitsAround(s: string, at: nat, n: nat)
    requires at + 3 + n <= |s| && s[at] == '-' && s[at + 1] == 'p' && s[at + 2 + n] == '.'
    ensures s == s[..at] + "-p" + s[at + 2..at + 2 + n] + "." + s[at + 3 + n..]
  {
    assert s[at..at + 2] == "-p" && s[at + 2 + n..at + 3 + n] == ".";
    assert s == s[..at] + s[at..at + 2] + s[at + 2..at + 2 + n] + s[at + 2 + n..at + 3 + n] + s[at + 3 + n..];
  }

  /** A marker splits a host into what is before it, its digits and the rest. */
  lemma MarkerSplitsHost(host: string, at: nat) returns (port: string, rest: string)
    requires MarkerAt(host, at)
    ensures PortText(port) && host == HostText(host[..at], port, rest)
    ensures at + 3 + DigitRun(host, at + 2) <= |host| && rest == host[at + 3 + DigitRun(host, at + 2)..]
  {
    var n := DigitRun(host, at + 2);
    SplitsAround(host, at, n);
    port, rest := host[at + 2..at + 2 + n], host[at + 3 + n..];
  }

  lemma ShapedSplits(host: string) returns (id: string, port: string, rest: string)
    requires PreviewShaped(host)
    ensures id != "" && LabelChars(id) && PortText(port) && host == HostText(id, port, rest)
  {
    var at :| 1 <= at <= |host| && LabelChars(host[..at]) && MarkerAt(host, at);
    id := host[..at];
    port, rest := MarkerSplitsHost(host, at);
  }

  /** A host has the shape exactly when it is a label id, a marker and anything. */
  lemma ShapedExactly(host: string)
    ensures PreviewShaped(host) <==>
              exists id: string, port: string, rest: string ::
                id != "" && LabelChars(id) && PortText(port) && host == HostText(id, port, rest)
  {
    if PreviewShaped(host) {
      var id, port, rest := ShapedSplits(host);
    }
    forall id: string, port: string, rest: string |
      id != "" && LabelChars(id) && PortText(port) && host == HostText(id, port, rest)
      ensures PreviewShaped(host)
    {
      PrintedIsShaped(id, port, rest);
    }
  }

  lemma MarkerSplits(host: string, at: nat)
    requires MarkerAt(host, at)
    ensures var n := DigitRun(host, at + 2);
            && at + 3 + n <= |host| && PortText(host[at + 2..at + 2 + n])
            && host[at..] == HostText("", host[at + 2..at + 2 + n], host[at + 3 + n..])
  {
  }

  lemma ShapedHasMarker(host: string)
    requires PreviewShaped(host)
    ensures FirstMarker(host, 0).Some?
  {
    var shaped :| 1 <= shaped <= |host| && LabelChars(host[..shaped]) && MarkerAt(host, shaped);
  }

  /** On any host, the rewriter answers exactly for a port and a host of the shape. */
  lemma RewritesExactlyShaped(host: string, text: string)
    ensures WithPreviewPort(host, text).Some?
       <==> PortText(Trim(text)) && ValidPort(Value(Trim(text))) && PreviewShaped(host)
  {
  }

  /** And then it swaps the digits of the host's first marker and nothing else. */
  lemma RewritesFirstMarker(host: string, text: string) returns (at: nat, digits: string, rest: string)
    requires WithPreviewPort(host, text).Some?
    ensures at <= |host| && PortText(digits) && forall i | 0 <= i < at :: !MarkerAt(host, i)
    ensures host == HostText(host[..at], digits, rest)
    ensures WithPreviewPort(host, text).value == HostText(host[..at], Trim(text), rest)
  {
    ShapedHasMarker(host);
    at := FirstMarker(host, 0).value;
    digits, rest := MarkerSplitsHost(host, at);
  }
}
