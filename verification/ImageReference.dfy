/** Container image references as the admission policies read them: the canonical repository, the
    allowlist, and whether a reference is pinned. */
module ImageReference {
  import opened Validation

  // ---- the string functions the policies call ----------------------------------------------

  /** Where a character first stands, or the length if it does not occur. */
  function IndexOf(s: string, c: char): (i: nat)
    ensures i <= |s| && (i < |s| ==> s[i] == c)
    ensures forall k | 0 <= k < i :: s[k] != c
  {
    if s == "" || s[0] == c then 0 else 1 + IndexOf(s[1..], c)
  }

  function LastIndexOf(s: string, c: char): (i: int)
    ensures -1 <= i < |s| && (i >= 0 ==> s[i] == c)
    ensures forall k | i < k < |s| :: s[k] != c
  {
    if s == "" then -1
    else if s[|s| - 1] == c then |s| - 1
    else LastIndexOf(s[..|s| - 1], c)
  }

  function Split(s: string, c: char): (parts: seq<string>)
    ensures |parts| >= 1
  {
    var i := IndexOf(s, c);
    if i == |s| then [s] else [s[..i]] + Split(s[i + 1..], c)
  }

  function Last(parts: seq<string>): string
    requires |parts| >= 1
  {
    parts[|parts| - 1]
  }

  /** The last path segment. */
  function Segment(s: string): string {
    s[LastIndexOf(s, '/') + 1..]
  }

  predicate EndsWith(s: string, suffix: string) {
    |suffix| <= |s| && s[|s| - |suffix|..] == suffix
  }

  lemma Once(s: string, c: char, i: nat)
    requires i < |s| && s[i] == c
    ensures (forall k | 0 <= k < i :: s[k] != c) ==> IndexOf(s, c) == i
    ensures (forall k | i < k < |s| :: s[k] != c) ==> LastIndexOf(s, c) == i
  {
    hide IndexOf, LastIndexOf;
  }

  lemma Absent(s: string, c: char)
    ensures c !in s <==> IndexOf(s, c) == |s|
    ensures c !in s <==> LastIndexOf(s, c) == -1
  {
    hide IndexOf, LastIndexOf;
  }

  lemma SplitFirst(s: string, c: char)
    ensures Split(s, c)[0] == s[..IndexOf(s, c)]
    ensures |Split(s, c)| == 1 <==> c !in s
  {
    hide IndexOf, LastIndexOf;
    Absent(s, c);
    assert IndexOf(s, c) == |s| ==> s[..|s|] == s;
  }

  lemma {:induction false} SplitLast(s: string, c: char)
    ensures Last(Split(s, c)) == s[LastIndexOf(s, c) + 1..]
    decreases |s|
  {
    hide IndexOf, LastIndexOf;
    var i := IndexOf(s, c);
    if i < |s| {
      var rest := s[i + 1..];
      SplitLast(rest, c);
      LastBehind(s, i, c);
      var j := LastIndexOf(rest, c);
      assert rest[j + 1..] == s[i + 1 + j + 1..];
    } else {
      assert s[0..] == s;
    }
  }

  /** The first part ends before the first separator, the last one starts after the last, and there
      is one part iff there is no separator. */
  lemma SplitEnds(s: string, c: char)
    ensures Split(s, c)[0] == s[..IndexOf(s, c)]
    ensures Last(Split(s, c)) == s[LastIndexOf(s, c) + 1..]
    ensures |Split(s, c)| == 1 <==> c !in s
  {
    hide IndexOf, LastIndexOf, Split;
    SplitFirst(s, c);
    SplitLast(s, c);
  }

  lemma LastBehind(s: string, i: nat, c: char)
    requires i < |s| && s[i] == c
    ensures LastIndexOf(s, c) == i + 1 + LastIndexOf(s[i + 1..], c)
  {
    hide LastIndexOf;
    var rest := s[i + 1..];
    assert forall k | i < k < |s| :: s[k] == rest[k - i - 1];
    Once(s, c, i + 1 + LastIndexOf(rest, c));
  }

  lemma InSuffix(s: string, n: nat, c: char)
    requires n <= |s|
    ensures c in s[n..] <==> exists k | n <= k < |s| :: s[k] == c
  {
    if c in s[n..] {
      var k :| 0 <= k < |s| - n && s[n..][k] == c;
      assert s[n + k] == c;
    }
    forall k | n <= k < |s| && s[k] == c
      ensures c in s[n..]
    {
      assert s[n..][k - n] == c;
    }
  }

  /** A character is in the last segment iff it last stands behind the last slash. */
  lemma InSegment(s: string, c: char)
    requires c != '/'
    ensures c in Segment(s) <==> LastIndexOf(s, c) > LastIndexOf(s, '/')
  {
    hide LastIndexOf;
    InSuffix(s, LastIndexOf(s, '/') + 1, c);
  }

  // ---- the policies ------------------------------------------------------------------------

  /** The reference without its digest and its tag. */
  function Bare(image: string): string {
    var ref := Split(image, '@')[0];
    SplitEnds(ref, '/');
    InSegment(ref, ':');
    if ':' in Last(Split(ref, '/')) then ref[..LastIndexOf(ref, ':')] else ref
  }

  predicate IsHost(segment: string) {
    '.' in segment || ':' in segment || segment == "localhost"
  }

  const HUB := "docker.io/"
  const LIBRARY := "docker.io/library/"

  /** Docker Hub names written out in full. */
  function Qualify(repo: string): string {
    var parts := Split(repo, '/');
    if |parts| > 1 && IsHost(parts[0]) then repo
    else if |parts| == 1 then LIBRARY + repo
    else HUB + repo
  }

  /** The canonical repository of an image. */
  function Normalise(image: string): string {
    Qualify(Bare(image))
  }

  function OnHub(organisation: string, name: string): string {
    HUB + (organisation + "/" + name)
  }

  function At(registry: string, path: string): string {
    registry + "/" + path
  }

  const ALLOWED: seq<string> := [
    OnHub("miqui", "rest-message-api"),
    OnHub("library", "postgres"),
    OnHub("library", "busybox"),
    OnHub("library", "nginx"),
    OnHub("curlimages", "curl"),
    OnHub("hazelcast", "hazelcast"),
    At("quay.io", "prometheuscommunity/postgres-exporter"),
    OnHub("grafana", "grafana"),
    OnHub("prom", "prometheus"),
    OnHub("prom", "node-exporter"),
    OnHub("otel", "opentelemetry-collector-contrib"),
    At("registry.k8s.io", "kube-state-metrics/kube-state-metrics"),
    At("o2cr.ai", "openobserve/openobserve"),
    At("ghcr.io", "headlamp-k8s/headlamp")
  ]

  /** The restrict-image-repositories rule for one pod. */
  predicate Admitted(containers: seq<string>, initContainers: seq<string>) {
    forall c | c in containers + initContainers :: Normalise(c) in ALLOWED
  }

  /** The disallow-latest-tag rule for one image. */
  predicate Pinned(image: string) {
    '@' in image || (':' in Last(Split(image, '/')) && !EndsWith(image, ":latest"))
  }

  /** `Bare` in terms of where the separators stand. */
  lemma BareIs(image: string)
    ensures var ref := image[..IndexOf(image, '@')];
            && '@' !in ref && (':' in Segment(ref) <==> LastIndexOf(ref, ':') > LastIndexOf(ref, '/'))
            && Bare(image) == if ':' in Segment(ref) then ref[..LastIndexOf(ref, ':')] else ref
  {
    hide IndexOf, LastIndexOf;
    SplitEnds(image, '@');
    var ref := image[..IndexOf(image, '@')];
    SplitEnds(ref, '/');
    InSegment(ref, ':');
  }

  // ---- references, printed and parsed ------------------------------------------------------

  /** repo[:tag][@digest] */
  datatype Reference = Reference(repo: string, tag: Option<string>, digest: Option<string>)

  predicate IsTag(tag: string) {
    '/' !in tag && ':' !in tag && '@' !in tag
  }

  predicate WellFormed(r: Reference) {
    && '@' !in r.repo && ':' !in Segment(r.repo)
    && (r.tag.Some? ==> IsTag(r.tag.value))
  }

  function WithTag(repo: string, tag: Option<string>): string {
    if tag.Some? then repo + ":" + tag.value else repo
  }

  function WithDigest(ref: string, digest: Option<string>): string {
    if digest.Some? then ref + "@" + digest.value else ref
  }

  function Text(r: Reference): string {
    WithDigest(WithTag(r.repo, r.tag), r.digest)
  }

  lemma DigestCut(ref: string, digest: Option<string>)
    requires '@' !in ref
    ensures var s := WithDigest(ref, digest);
            && IndexOf(s, '@') == |ref| && s[..|ref|] == ref
            && (digest.Some? <==> |ref| < |s|)
            && (digest.Some? ==> s[|ref| + 1..] == digest.value)
  {
    hide IndexOf;
    var s := WithDigest(ref, digest);
    assert s[..|ref|] == ref;
    forall k | 0 <= k < |ref|
      ensures s[k] != '@'
    {
      assert ref[k] in ref;
    }
    if digest.Some? {
      Once(s, '@', |ref|);
    }
  }

  lemma TagCut(repo: string, tag: string)
    requires IsTag(tag)
    ensures var ref := repo + ":" + tag;
            && LastIndexOf(ref, ':') == |repo| && LastIndexOf(ref, '/') < |repo|
            && ref[..|repo|] == repo && ref[|repo| + 1..] == tag
  {
    hide LastIndexOf;
    var ref := repo + ":" + tag;
    forall k | |repo| < k < |ref|
      ensures ref[k] != ':' && ref[k] != '/'
    {
      assert ref[k] == tag[k - |repo| - 1] && tag[k - |repo| - 1] in tag;
    }
    Once(ref, ':', |repo|);
  }

  /** The normaliser drops exactly the tag and the digest: whatever they are, what is left of a
      reference is its repository, with a registry's port where it has one. */
  lemma DropsTagAndDigest(r: Reference)
    requires WellFormed(r)
    ensures Bare(Text(r)) == r.repo
    ensures Normalise(Text(r)) == Qualify(r.repo)
  {
    hide IndexOf, LastIndexOf, Bare, Segment;
    var ref := WithTag(r.repo, r.tag);
    DigestCut(ref, r.digest);
    BareIs(Text(r));
    if r.tag.Some? {
      TagCut(r.repo, r.tag.value);
    }
  }

  lemma FirstSlash(front: string, path: string)
    requires '/' !in front
    ensures IndexOf(front + "/" + path, '/') == |front|
  {
    hide IndexOf, LastIndexOf;
    var s := front + "/" + path;
    forall k | 0 <= k < |front|
      ensures s[k] != '/'
    {
      assert s[k] == front[k] && front[k] in front;
    }
    Once(s, '/', |front|);
  }

  lemma DropTwice(s: string, i: nat, j: nat)
    requires i + j <= |s|
    ensures s[i..][j..] == s[i + j..]
  {
  }

  lemma SegmentBehind(front: string, path: string)
    ensures Segment(front + "/" + path) == Segment(path)
  {
    hide IndexOf, LastIndexOf;
    var s, i := front + "/" + path, |front| + 1;
    assert s[|front|] == '/' && s[i..] == path;
    LastBehind(s, |front|, '/');
    DropTwice(s, i, LastIndexOf(path, '/') + 1);
  }

  /** A path after a slash: the first segment is in front of it and the last one within it. */
  lemma SlashBefore(front: string, path: string)
    requires '/' !in front
    ensures var s := front + "/" + path;
            |Split(s, '/')| > 1 && Split(s, '/')[0] == front && Segment(s) == Segment(path)
  {
    hide IndexOf, LastIndexOf, Split, Segment;
    var s := front + "/" + path;
    FirstSlash(front, path);
    SegmentBehind(front, path);
    SplitFirst(s, '/');
    assert s[|front|] == '/' && s[..|front|] == front;
  }

  lemma KeepsRegistryPort(host: string, port: string, path: string, tag: Option<string>, digest: Option<string>)
    requires '/' !in host + port && '@' !in host + port + path && ':' !in Segment(path)
    requires tag.Some? ==> IsTag(tag.value)
    ensures var repo := host + ":" + port + "/" + path;
            Normalise(Text(Reference(repo, tag, digest))) == repo
  {
    hide IndexOf, LastIndexOf, Segment, Normalise;
    var registry := host + ":" + port;
    var repo := registry + "/" + path;
    assert repo == host + ":" + port + "/" + path;
    assert forall c | c in host :: c in host + port;
    assert forall c | c in port :: c in host + port;
    SlashBefore(registry, path);
    assert registry[|host|] == ':';
    forall c | c in repo
      ensures c != '@'
    {
      assert c in host + port + path || c == ':' || c == '/';
    }
    DropsTagAndDigest(Reference(repo, tag, digest));
  }

  /** The reading of a reference: what the normaliser and the pin check cut it into. */
  function Parse(image: string): Reference {
    var at := IndexOf(image, '@');
    var ref := image[..at];
    var digest := if at < |image| then Some(image[at + 1..]) else None;
    var colon := LastIndexOf(ref, ':');
    if colon > LastIndexOf(ref, '/') then Reference(ref[..colon], Some(ref[colon + 1..]), digest)
    else Reference(ref, None, digest)
  }

  /** What is left once digest and tag are gone has no further colon in its last segment. */
  predicate OneColon(image: string) {
    ':' !in Segment(Bare(image))
  }

  lemma BehindColon(ref: string)
    requires '@' !in ref && LastIndexOf(ref, ':') > LastIndexOf(ref, '/')
    ensures IsTag(ref[LastIndexOf(ref, ':') + 1..])
    ensures ref == ref[..LastIndexOf(ref, ':')] + ":" + ref[LastIndexOf(ref, ':') + 1..]
  {
    hide LastIndexOf;
    var colon := LastIndexOf(ref, ':');
    forall k | colon < k < |ref|
      ensures ref[k] != '@'
    {
      assert ref[k] in ref;
    }
  }

  /** Every string is the text of what it parses to. */
  lemma TextOfParse(image: string)
    ensures var r := Parse(image);
            && Text(r) == image && r.repo == Bare(image) && '@' !in r.repo
            && (r.tag.Some? ==> IsTag(r.tag.value))
            && (WellFormed(r) <==> OneColon(image))
  {
    hide IndexOf, LastIndexOf, Bare, Segment, IsTag;
    var at := IndexOf(image, '@');
    var ref := image[..at];
    BareIs(image);
    if LastIndexOf(ref, ':') > LastIndexOf(ref, '/') {
      BehindColon(ref);
    }
    assert at < |image| ==> image == ref + "@" + image[at + 1..];
    assert at == |image| ==> ref == image;
  }

  /** And every well-formed reference is what its text parses to, so the two are inverses. */
  lemma ParseOfText(r: Reference)
    requires WellFormed(r)
    ensures Parse(Text(r)) == r
  {
    hide IndexOf, LastIndexOf, Segment;
    var ref := WithTag(r.repo, r.tag);
    DigestCut(ref, r.digest);
    if r.tag.Some? {
      TagCut(r.repo, r.tag.value);
    } else {
      InSegment(ref, ':');
    }
  }

  lemma LastIsSegment(s: string)
    ensures Last(Split(s, '/')) == Segment(s)
  {
    SplitLast(s, '/');
  }

  /** An image passes the pin check iff it has a digest, or a tag other than `latest`. */
  lemma PinnedExactly(image: string)
    ensures var r := Parse(image);
            Pinned(image) <==> r.digest.Some? || (r.tag.Some? && r.tag.value != "latest")
  {
    hide IndexOf, LastIndexOf, Split, Segment, EndsWith;
    Absent(image, '@');
    LastIsSegment(image);
    InSegment(image, ':');
    if '@' !in image {
      assert image[..|image|] == image;
      if ':' in image {
        LatestExactly(image);
      } else {
        Absent(image, ':');
      }
    }
  }

  lemma LatestExactly(s: string)
    requires ':' in s
    ensures EndsWith(s, ":latest") <==> s[LastIndexOf(s, ':') + 1..] == "latest"
  {
    hide LastIndexOf;
    Absent(s, ':');
    var i, n := LastIndexOf(s, ':'), |":latest"|;
    if EndsWith(s, ":latest") {
      var k := |s| - n;
      assert s[k] == s[k..][0] == ':';
      assert s[k + 1..] == s[k..][1..] == "latest";
      forall j | k < j < |s|
        ensures s[j] != ':'
      {
        assert s[j] == s[k + 1..][j - k - 1] == "latest"[j - k - 1];
      }
      Once(s, ':', k);
    }
    if s[i + 1..] == "latest" {
      assert s[i..] == [s[i]] + s[i + 1..];
    }
  }

  // ---- idempotence -------------------------------------------------------------------------

  lemma QualifyIsHosted(repo: string)
    requires '@' !in repo
    ensures var q := Qualify(repo);
            && Segment(q) == Segment(repo) && '@' !in q
            && |Split(q, '/')| > 1 && IsHost(Split(q, '/')[0])
  {
    hide IndexOf, LastIndexOf, Segment, Split;
    var host := "docker.io";
    assert host[6] == '.';
    SlashBefore(host, repo);
    SlashBefore(host, "library/" + repo);
    SlashBefore("library", repo);
    assert LIBRARY + repo == host + "/" + ("library/" + repo);
    assert "library/" + repo == "library" + "/" + repo;
    assert HUB + repo == host + "/" + repo;
  }

  /** Cutting a tag off a name of several segments leaves its first segment. */
  lemma CutKeepsHost(s: string, colon: nat)
    requires '/' in s && LastIndexOf(s, '/') < colon <= |s|
    ensures var cut := s[..colon];
            |Split(cut, '/')| > 1 && Split(cut, '/')[0] == Split(s, '/')[0]
  {
    hide IndexOf, LastIndexOf;
    SplitEnds(s, '/');
    Absent(s, '/');
    var i, cut := IndexOf(s, '/'), s[..colon];
    assert cut[i] == '/' && cut[..i] == s[..i];
    Once(cut, '/', i);
    SplitEnds(cut, '/');
  }

  /** Normalising a second time changes nothing, unless the last segment has a second colon for
      the second pass to cut at. */
  lemma IdempotentExactly(image: string)
    ensures Normalise(Normalise(image)) == Normalise(image) <==> OneColon(image)
  {
    hide IndexOf, LastIndexOf, Bare, Segment, Qualify, Split;
    TextOfParse(image);
    QualifyIsHosted(Bare(image));
    HostedNormalises(Qualify(Bare(image)));
  }

  /** It does happen, to a string with two colons: each pass cuts one part off. */
  lemma NormalisesTwice()
    ensures Normalise("a:b:c") == "docker.io/library/a:b"
    ensures Normalise("docker.io/library/a:b") == "docker.io/library/a"
  {
    hide IndexOf, LastIndexOf, Bare, Segment, Split, Normalise;
    CutsOnce("a:b:c", 3);
    CutsOnce("docker.io/library/a:b", 19);
    var cut := "a:b:c"[..3];
    assert cut == "a:b" && '/' !in cut;
    OnLibrary(cut);
    var name := "docker.io/library/a:b"[..19];
    assert name == "docker.io/library/a" && name == "docker.io" + "/" + "library/a" && "docker.io"[6] == '.';
    SlashBefore("docker.io", "library/a");
    StaysHosted(name);
  }

  lemma CutsOnce(image: string, colon: nat)
    requires '@' !in image && colon < |image| && image[colon] == ':'
    requires forall k | colon < k < |image| :: image[k] != ':' && image[k] != '/'
    ensures Bare(image) == image[..colon] && Normalise(image) == Qualify(image[..colon])
  {
    hide IndexOf, LastIndexOf, Bare, Segment, Qualify;
    Absent(image, '@');
    assert image[..|image|] == image;
    Once(image, ':', colon);
    BareIs(image);
    var slash := LastIndexOf(image, '/');
    assert slash >= 0 ==> image[slash] == '/';
  }

  lemma OnLibrary(repo: string)
    requires '/' !in repo
    ensures Qualify(repo) == LIBRARY + repo
  {
    hide IndexOf, LastIndexOf, Split;
    SplitEnds(repo, '/');
  }

  lemma StaysHosted(repo: string)
    requires |Split(repo, '/')| > 1 && IsHost(Split(repo, '/')[0])
    ensures Qualify(repo) == repo
  {
  }

  lemma HostedNormalises(q: string)
    requires '@' !in q && |Split(q, '/')| > 1 && IsHost(Split(q, '/')[0])
    ensures Normalise(q) == q <==> ':' !in Segment(q)
  {
    hide IndexOf, LastIndexOf, Bare, Segment, Split, IsHost;
    Absent(q, '@');
    assert q[..|q|] == q;
    BareIs(q);
    SplitEnds(q, '/');
    if ':' in Segment(q) {
      CutKeepsHost(q, LastIndexOf(q, ':'));
    }
  }

  // ---- the allowlist -----------------------------------------------------------------------

  /** The names that stand for a repository once tag and digest are gone: itself, and without the
      `docker.io/` or, for a library image, the `docker.io/library/` in front. */
  predicate Names(bare: string, r: string) {
    bare == r || HUB + bare == r || LIBRARY + bare == r
  }

  /** A repository written out in full: a host in front, and on Docker Hub an organisation and a
      name, of which only the library's are also known by one name. */
  ghost predicate Canonical(r: string) {
    && |Split(r, '/')| > 1 && IsHost(Split(r, '/')[0])
    && (forall rest | r == HUB + rest :: |Split(rest, '/')| > 1 && !IsHost(Split(rest, '/')[0]))
    && (forall name | r == LIBRARY + name :: |Split(name, '/')| == 1)
  }

  lemma QualifyExactly(bare: string, r: string)
    requires Canonical(r)
    ensures Qualify(bare) == r <==> Names(bare, r)
  {
    hide Split, IsHost;
    assert HUB + ("library/" + bare) == LIBRARY + bare;
  }

  lemma RegistryCanonical(host: string, path: string)
    requires '/' !in host && IsHost(host) && host != "docker.io"
    ensures Canonical(At(host, path))
  {
    hide Split, IsHost;
    var r := At(host, path);
    SlashBefore(host, path);
    forall rest
      ensures r != HUB + rest
    {
      SlashBefore("docker.io", rest);
      assert HUB + rest == "docker.io" + "/" + rest;
    }
    forall name
      ensures r != LIBRARY + name
    {
      LibraryIsOnHub(name);
    }
  }

  lemma SamePrefix(prefix: string, a: string, b: string)
    requires prefix + a == prefix + b
    ensures a == b
  {
    assert a == (prefix + a)[|prefix|..] && b == (prefix + b)[|prefix|..];
  }

  lemma HubCanonical(org: string, name: string)
    requires '/' !in org && !IsHost(org) && '/' !in name
    ensures Canonical(OnHub(org, name))
  {
    HubIsHost();
    hide Split, IsHost, OnHub;
    HubParts(org, name);
    forall rest | OnHub(org, name) == HUB + rest
      ensures rest == org + "/" + name
    {
      HubRest(org, name, rest);
    }
    forall n | OnHub(org, name) == LIBRARY + n
      ensures |Split(n, '/')| == 1
    {
      LibraryIsOnHub(n);
      HubRest(org, name, "library/" + n);
      LibraryName(org, name, n);
    }
  }

  lemma HubIsHost()
    ensures IsHost("docker.io")
  {
    assert "docker.io"[6] == '.';
  }

  lemma HubParts(org: string, name: string)
    requires '/' !in org && '/' !in name
    ensures var r := OnHub(org, name); |Split(r, '/')| > 1 && Split(r, '/')[0] == "docker.io"
    ensures var path := org + "/" + name; |Split(path, '/')| > 1 && Split(path, '/')[0] == org
  {
    hide Split;
    assert OnHub(org, name) == "docker.io" + "/" + (org + "/" + name);
    SlashBefore("docker.io", org + "/" + name);
    SlashBefore(org, name);
  }

  lemma HubRest(org: string, name: string, rest: string)
    requires OnHub(org, name) == HUB + rest
    ensures rest == org + "/" + name
  {
    SamePrefix(HUB, rest, org + "/" + name);
  }

  lemma LibraryIsOnHub(name: string)
    ensures LIBRARY + name == HUB + ("library/" + name)
  {
  }

  lemma LibraryName(org: string, name: string, n: string)
    requires '/' !in org && '/' !in name && org + "/" + name == "library/" + n
    ensures |Split(n, '/')| == 1
  {
    hide Split, IndexOf;
    assert "library/" + n == "library" + "/" + n;
    FirstSlash(org, name);
    FirstSlash("library", n);
    SamePrefix("library/", name, n) by {
      assert org == (org + "/" + name)[..|org|] == ("library/" + n)[..|org|] == "library";
    }
    SplitFirst(n, '/');
  }

  lemma MessageImagesCanonical()
    ensures Canonical(OnHub("miqui", "rest-message-api")) && Canonical(OnHub("curlimages", "curl"))
    ensures Canonical(OnHub("hazelcast", "hazelcast"))
  {
    hide Canonical, OnHub;
    HubCanonical("miqui", "rest-message-api");
    HubCanonical("curlimages", "curl");
    HubCanonical("hazelcast", "hazelcast");
  }

  lemma LibraryImagesCanonical()
    ensures Canonical(OnHub("library", "postgres")) && Canonical(OnHub("library", "busybox"))
    ensures Canonical(OnHub("library", "nginx"))
  {
    hide Canonical, OnHub;
    HubCanonical("library", "postgres");
    HubCanonical("library", "busybox");
    HubCanonical("library", "nginx");
  }

  lemma MonitoringImagesCanonical()
    ensures Canonical(OnHub("grafana", "grafana")) && Canonical(OnHub("prom", "prometheus"))
    ensures Canonical(OnHub("prom", "node-exporter"))
  {
    hide Canonical, OnHub;
    HubCanonical("grafana", "grafana");
    HubCanonical("prom", "prometheus");
    HubCanonical("prom", "node-exporter");
  }

  lemma CollectorImageCanonical()
    ensures Canonical(OnHub("otel", "opentelemetry-collector-contrib"))
  {
    hide Canonical, OnHub;
    HubCanonical("otel", "opentelemetry-collector-contrib");
  }

  lemma QuayCanonical()
    ensures Canonical(At("quay.io", "prometheuscommunity/postgres-exporter"))
  {
    hide Canonical, At;
    assert "quay.io"[4] == '.';
    RegistryCanonical("quay.io", "prometheuscommunity/postgres-exporter");
  }

  lemma KubernetesCanonical()
    ensures Canonical(At("registry.k8s.io", "kube-state-metrics/kube-state-metrics"))
  {
    hide Canonical, At;
    assert "registry.k8s.io"[8] == '.';
    RegistryCanonical("registry.k8s.io", "kube-state-metrics/kube-state-metrics");
  }

  lemma OpenObserveCanonical()
    ensures Canonical(At("o2cr.ai", "openobserve/openobserve"))
  {
    hide Canonical, At;
    assert "o2cr.ai"[4] == '.';
    RegistryCanonical("o2cr.ai", "openobserve/openobserve");
  }

  lemma GithubCanonical()
    ensures Canonical(At("ghcr.io", "headlamp-k8s/headlamp"))
  {
    hide Canonical, At;
    assert "ghcr.io"[4] == '.';
    RegistryCanonical("ghcr.io", "headlamp-k8s/headlamp");
  }

  lemma AllowedAreCanonical(r: string)
    requires r in ALLOWED
    ensures Canonical(r)
  {
    hide Canonical, OnHub, At;
    MessageImagesCanonical();
    LibraryImagesCanonical();
    MonitoringImagesCanonical();
    CollectorImageCanonical();
    QuayCanonical();
    KubernetesCanonical();
    OpenObserveCanonical();
    GithubCanonical();
  }

  /** For every string: it normalises to an allowed repository iff, once digest and tag are gone,
      it is one of that repository's names. */
  lemma AllowlistExactly(image: string, r: string)
    requires r in ALLOWED
    ensures Normalise(image) == r <==> Names(Parse(image).repo, r)
  {
    hide Canonical, Qualify, Bare, Names, Parse;
    AllowedAreCanonical(r);
    TextOfParse(image);
    QualifyExactly(Bare(image), r);
  }

  /** A pod is admitted iff each of its images is a reference to an allowed repository by one of
      its names. */
  lemma AdmittedExactly(containers: seq<string>, initContainers: seq<string>)
    ensures Admitted(containers, initContainers) <==>
            forall c | c in containers || c in initContainers :: Allowed(c)
  {
    hide Allowed, Normalise;
    forall c
      ensures Normalise(c) in ALLOWED <==> Allowed(c)
    {
      AllowedIsNormal(c);
    }
  }

  predicate Allowed(image: string) {
    exists r | r in ALLOWED :: Names(Parse(image).repo, r)
  }

  lemma AllowedIsNormal(image: string)
    ensures Normalise(image) in ALLOWED <==> Allowed(image)
  {
    hide Names, Parse, Normalise;
    forall r | r in ALLOWED
      ensures Normalise(image) == r <==> Names(Parse(image).repo, r)
    {
      AllowlistExactly(image, r);
    }
  }
}
