/** The images that the deployment's manifests name, against the two image policies. */
module Deployed {
  import opened Validation
  import opened ImageReference

  // ---- completing a name -------------------------------------------------------------------

  /** A name is completed unless it has several segments and the first is a host: has a '.' or a ':'
      or is "localhost". */
  lemma QualifyBySegments(first: string, path: string)
    requires '/' !in first
    ensures Qualify(first) == "docker.io/library/" + first
    ensures Qualify(first + "/" + path) ==
            if '.' in first || ':' in first || first == "localhost" then first + "/" + path
            else "docker.io/" + (first + "/" + path)
  {
    hide Split, Segment;
    SplitEnds(first, '/');
    SlashBefore(first, path);
  }

  function Tagged(repo: string, tag: string): string {
    repo + ":" + tag
  }

  predicate Plain(s: string) {
    ':' !in s && '@' !in s
  }

  lemma TaggedIs(repo: string, tag: string)
    requires Plain(repo) && IsTag(tag)
    ensures Normalise(Tagged(repo, tag)) == Qualify(repo)
    ensures tag != "latest" ==> Pinned(Tagged(repo, tag))
    ensures tag == "latest" ==> !Pinned(Tagged(repo, tag))
  {
    hide IndexOf, LastIndexOf, Normalise, Qualify, Segment, Pinned;
    PlainSegment(repo);
    var r := Reference(repo, Some(tag), None);
    DropsTagAndDigest(r);
    ParseOfText(r);
    PinnedExactly(Tagged(repo, tag));
  }

  lemma PlainSegment(repo: string)
    requires Plain(repo)
    ensures ':' !in Segment(repo)
  {
    hide LastIndexOf;
    InSuffix(repo, LastIndexOf(repo, '/') + 1, ':');
  }

  // ---- the images of the manifests ---------------------------------------------------------

  predicate Simple(s: string) {
    Plain(s) && '/' !in s && '.' !in s
  }

  /** A Docker Hub library image by its one name. */
  lemma LibraryImage(name: string, tag: string)
    requires Plain(name) && '/' !in name && IsTag(tag) && OnHub("library", name) in ALLOWED
    ensures Admitted([Tagged(name, tag)], []) && (Pinned(Tagged(name, tag)) <==> tag != "latest")
  {
    hide Qualify, Normalise, Tagged, Pinned;
    TaggedIs(name, tag);
    QualifyBySegments(name, "");
    assert "docker.io/library/" + name == OnHub("library", name);
  }

  /** A Docker Hub image by organisation and name. */
  lemma HubImage(organisation: string, name: string, tag: string)
    requires Simple(organisation) && organisation != "localhost" && Plain(name) && IsTag(tag)
    requires OnHub(organisation, name) in ALLOWED
    ensures var image := Tagged(organisation + "/" + name, tag);
            Admitted([image], []) && (Pinned(image) <==> tag != "latest")
  {
    hide Qualify, Normalise, Tagged, Pinned;
    TaggedIs(organisation + "/" + name, tag);
    QualifyBySegments(organisation, name);
  }

  /** An allowed repository written in full. */
  lemma FullImage(repo: string, tag: string)
    requires repo in ALLOWED && Plain(repo) && IsTag(tag)
    ensures Admitted([Tagged(repo, tag)], []) && (Pinned(Tagged(repo, tag)) <==> tag != "latest")
  {
    hide Canonical, Qualify, Normalise, Tagged, Pinned;
    TaggedIs(repo, tag);
    AllowedAreCanonical(repo);
    QualifyExactly(repo, repo);
  }

  /** Admitted, and pinned to a tag other than latest. */
  predicate Fine(image: string) {
    Admitted([image], []) && Pinned(image)
  }

  // k8s/deployment.yaml, k8s/postgres-statefulset.yaml, k8s/hazelcast-deployment.yaml

  /** The service under the name and tag that k8s/kustomization.yaml gives it. */
  lemma ServiceImage()
    ensures var image := Tagged(OnHub("miqui", "rest-message-api"), "latest");
            Admitted([image], []) && !Pinned(image)
  {
    hide Admitted, Pinned, Tagged, OnHub, At;
    AllowedParts();
    PlainOnHub("miqui", "rest-message-api");
    FullImage(OnHub("miqui", "rest-message-api"), "latest");
  }

  lemma DatabaseImage()
    ensures Fine(Tagged("postgres", "16-alpine"))
  {
    hide Admitted, Pinned, Tagged, OnHub, At;
    AllowedParts();
    LibraryImage("postgres", "16-alpine");
  }

  lemma WaitImage()
    ensures Fine(Tagged("busybox", "1.36"))
  {
    hide Admitted, Pinned, Tagged, OnHub, At;
    AllowedParts();
    LibraryImage("busybox", "1.36");
  }

  lemma CacheImage()
    ensures Fine(Tagged("hazelcast" + "/" + "hazelcast", "5.7.0-slim"))
  {
    hide Admitted, Pinned, Tagged, OnHub, At;
    AllowedParts();
    HubImage("hazelcast", "hazelcast", "5.7.0-slim");
  }

  lemma CacheProbeImage()
    ensures Fine(Tagged("curlimages" + "/" + "curl", "8.22.0"))
  {
    hide Admitted, Pinned, Tagged, OnHub, At;
    AllowedParts();
    HubImage("curlimages", "curl", "8.22.0");
  }

  lemma ExporterNames()
    ensures Plain("quay.io") && Plain("prometheuscommunity/postgres-exporter")
    ensures IsTag("v0.20.1") && "v0.20.1" != "latest"
  {
    ExporterNoColon();
    ExporterNoAt();
  }

  lemma ExporterNoColon()
    ensures ':' !in "prometheuscommunity/postgres-exporter"
  {
  }

  lemma ExporterNoAt()
    ensures '@' !in "prometheuscommunity/postgres-exporter"
  {
  }

  lemma ExporterImage()
    ensures Fine(Tagged(At("quay.io", "prometheuscommunity/postgres-exporter"), "v0.20.1"))
  {
    hide Admitted, Pinned, Tagged, OnHub, At, Plain, IsTag;
    AllowedParts();
    ExporterNames();
    PlainAt("quay.io", "prometheuscommunity/postgres-exporter");
    FullImage(At("quay.io", "prometheuscommunity/postgres-exporter"), "v0.20.1");
  }

  // k8s/observability

  lemma GrafanaImage()
    ensures Fine(Tagged("grafana" + "/" + "grafana", "11.3.1"))
  {
    hide Admitted, Pinned, Tagged, OnHub, At;
    AllowedParts();
    HubImage("grafana", "grafana", "11.3.1");
  }

  lemma PrometheusImage()
    ensures Fine(Tagged("prom" + "/" + "prometheus", "v2.55.1"))
  {
    hide Admitted, Pinned, Tagged, OnHub, At;
    AllowedParts();
    HubImage("prom", "prometheus", "v2.55.1");
  }

  lemma NodeExporterImage()
    ensures Fine(Tagged("prom" + "/" + "node-exporter", "v1.8.2"))
  {
    hide Admitted, Pinned, Tagged, OnHub, At;
    AllowedParts();
    HubImage("prom", "node-exporter", "v1.8.2");
  }

  lemma CollectorImage()
    ensures Fine(Tagged("otel" + "/" + "opentelemetry-collector-contrib", "0.114.0"))
  {
    hide Admitted, Pinned, Tagged, OnHub, At, Simple, IsTag;
    AllowedParts();
    CollectorNames();
    HubImage("otel", "opentelemetry-collector-contrib", "0.114.0");
  }

  lemma CollectorNames()
    ensures Simple("otel") && Plain("opentelemetry-collector-contrib") && IsTag("0.114.0")
    ensures "otel" != "localhost" && "0.114.0" != "latest"
  {
    CollectorNoColon();
    CollectorNoAt();
  }

  lemma CollectorNoColon()
    ensures ':' !in "opentelemetry-collector-contrib"
  {
  }

  lemma CollectorNoAt()
    ensures '@' !in "opentelemetry-collector-contrib"
  {
  }

  lemma StateMetricsNames()
    ensures Plain("registry.k8s.io") && Plain("kube-state-metrics/kube-state-metrics")
    ensures IsTag("v2.13.0") && "v2.13.0" != "latest"
  {
    StateMetricsNoColon();
    StateMetricsNoAt();
  }

  lemma StateMetricsNoColon()
    ensures ':' !in "kube-state-metrics/kube-state-metrics"
  {
  }

  lemma StateMetricsNoAt()
    ensures '@' !in "kube-state-metrics/kube-state-metrics"
  {
  }

  lemma StateMetricsImage()
    ensures Fine(Tagged(At("registry.k8s.io", "kube-state-metrics/kube-state-metrics"), "v2.13.0"))
  {
    hide Admitted, Pinned, Tagged, OnHub, At, Plain, IsTag;
    AllowedParts();
    StateMetricsNames();
    PlainAt("registry.k8s.io", "kube-state-metrics/kube-state-metrics");
    FullImage(At("registry.k8s.io", "kube-state-metrics/kube-state-metrics"), "v2.13.0");
  }

  /** Every image that the manifests name is admitted, and pinned but for the service's fallback tag. */
  lemma DeployedAreFine()
    ensures var service := Tagged(OnHub("miqui", "rest-message-api"), "latest");
            Admitted([service], []) && !Pinned(service)
    ensures Fine(Tagged("postgres", "16-alpine")) && Fine(Tagged("busybox", "1.36"))
    ensures Fine(Tagged("hazelcast" + "/" + "hazelcast", "5.7.0-slim"))
    ensures Fine(Tagged("curlimages" + "/" + "curl", "8.22.0"))
    ensures Fine(Tagged(At("quay.io", "prometheuscommunity/postgres-exporter"), "v0.20.1"))
    ensures Fine(Tagged("grafana" + "/" + "grafana", "11.3.1")) && Fine(Tagged("prom" + "/" + "prometheus", "v2.55.1"))
    ensures Fine(Tagged("prom" + "/" + "node-exporter", "v1.8.2"))
    ensures Fine(Tagged("otel" + "/" + "opentelemetry-collector-contrib", "0.114.0"))
    ensures Fine(Tagged(At("registry.k8s.io", "kube-state-metrics/kube-state-metrics"), "v2.13.0"))
  {
    hide Fine, Admitted, Pinned, Tagged, OnHub, At;
    ServiceImage();
    DatabaseImage();
    WaitImage();
    CacheImage();
    CacheProbeImage();
    ExporterImage();
    GrafanaImage();
    PrometheusImage();
    NodeExporterImage();
    CollectorImage();
    StateMetricsImage();
  }

  /** Exactly these repositories are allowed. */
  lemma AllowedParts()
    ensures |ALLOWED| == 14
    ensures OnHub("miqui", "rest-message-api") in ALLOWED && OnHub("library", "postgres") in ALLOWED
    ensures OnHub("library", "busybox") in ALLOWED && OnHub("library", "nginx") in ALLOWED
    ensures OnHub("curlimages", "curl") in ALLOWED && OnHub("hazelcast", "hazelcast") in ALLOWED
    ensures At("quay.io", "prometheuscommunity/postgres-exporter") in ALLOWED
    ensures OnHub("grafana", "grafana") in ALLOWED && OnHub("prom", "prometheus") in ALLOWED
    ensures OnHub("prom", "node-exporter") in ALLOWED
    ensures OnHub("otel", "opentelemetry-collector-contrib") in ALLOWED
    ensures At("registry.k8s.io", "kube-state-metrics/kube-state-metrics") in ALLOWED
    ensures At("o2cr.ai", "openobserve/openobserve") in ALLOWED && At("ghcr.io", "headlamp-k8s/headlamp") in ALLOWED
  {
    hide OnHub, At;
  }

  lemma PlainOnHub(organisation: string, name: string)
    requires Plain(organisation) && Plain(name)
    ensures Plain(OnHub(organisation, name))
  {
  }

  lemma PlainAt(registry: string, path: string)
    requires Plain(registry) && Plain(path)
    ensures Plain(At(registry, path))
  {
  }
}
