// The cache of rendered charts, keyed by printed text.
module RenderCache {
  import opened Wrappers
  import opened Text
  import opened Versions

  datatype ChartKey = ChartKey(repoUrl: string, chartName: string, version: Version)

  datatype Instance = Instance(instanceId: string, name: string, namespace: string, releaseName: string,
                               valuesYaml: string)

  // `rest` is everything else in the application object.
  datatype Application = Application(name: string, namespace: string, repoUrl: string, chartName: string,
                                     valuesYaml: string, rest: string)

  datatype CachedApp<+R> = CachedApp(application: Application, chartKey: ChartKey, instance: Instance, rendered: R)

  const PREFIX := "instanceKey{ChartKey: "
  const SEPARATOR := ", Instance: "

  function KeyOf(app: Application, version: Version): ChartKey {
    ChartKey(app.repoUrl, app.chartName, version)
  }

  function InstanceId(app: Application): string { app.namespace + ['-'] + app.name }

  function InstanceOf(app: Application): Instance {
    Instance(InstanceId(app), app.name, app.namespace, app.name, app.valuesYaml)
  }

  function ChartText(k: ChartKey): string {
    (k.repoUrl + ['/'] + k.chartName) + [':'] + ToText(k.version)
  }

  function InstanceText(i: Instance): string {
    i.namespace + ['/']
    + (i.name + [' '] + ("(" + i.instanceId + ") " + i.releaseName + " values{" + i.valuesYaml + "}"))
  }

  // instanceKey.ToString.
  function KeyText(k: ChartKey, i: Instance): string {
    PREFIX + (ChartText(k) + (SEPARATOR + (InstanceText(i) + "}")))
  }

  // No comma in the repository URL, no ':' in the chart name, a version of Semantic Versioning 2.0.0, and
  // Kubernetes names (no '/' in a namespace, no blank in a name).
  ghost predicate Readable(app: Application, version: Version) {
    ReadableChart(KeyOf(app, version)) && Free(app.namespace, '/') && Free(app.name, ' ')
  }

  ghost predicate ReadableChart(k: ChartKey) {
    Free(k.repoUrl, ',') && Free(k.chartName, ':') && WellFormed(k.version)
  }

  // Also no '/' in the chart name.
  ghost predicate Legal(app: Application, version: Version) {
    Readable(app, version) && Free(app.chartName, '/')
  }

  // Where the chart comes from, as printed.
  function ChartPath(app: Application): string { app.repoUrl + ['/'] + app.chartName }

  // The separator's comma, colon and blank, ten and eleven places apart.
  ghost predicate SeparatorAt(s: string, p: nat)
    requires p + 12 <= |s|
  {
    s[p] == ',' && s[p + 10] == ':' && s[p + 11] == ' ' && forall j :: p < j < p + 10 ==> s[j] != ':'
  }

  lemma SeparatorShape(s: string, p: nat)
    requires p + |SEPARATOR| <= |s| && s[p..p + |SEPARATOR|] == SEPARATOR
    ensures SeparatorAt(s, p)
  {
    var w := s[p..p + |SEPARATOR|];
    assert s[p] == w[0] && s[p + 10] == w[10] && s[p + 11] == w[11];
    assert SEPARATOR[0] == ',' && SEPARATOR[10] == ':' && SEPARATOR[11] == ' ';
    forall j | p < j < p + 10 ensures s[j] != ':' {
      assert s[j] == w[j - p] == SEPARATOR[j - p];
    }
  }

  // A comma of `repo/chart:version` stands in the chart name; before the next colon comes the printed version,
  // which opens with a digit, so the separator never occurs inside.
  lemma NoSeparatorInside(repo: string, chart: string, version: string, rest: string, p: nat)
    requires Free(repo, ',') && Free(chart, ':') && Free(version, ',') && version != "" && IsDigit(version[0])
    requires p < |repo| + |chart| + |version| + 2
    requires p + 12 <= |repo + ['/'] + chart + [':'] + version + rest|
    ensures !SeparatorAt(repo + ['/'] + chart + [':'] + version + rest, p)
  {
    var s := repo + ['/'] + chart + [':'] + version + rest;
    var colon := |repo| + 1 + |chart|;
    assert s[colon] == ':' && s[colon + 1] == version[0];
    if p <= |repo| {
      assert s[p] == if p < |repo| then repo[p] else '/';
    } else if p < colon {
      assert forall j :: |repo| < j < colon ==> s[j] == chart[j - |repo| - 1];
    } else if p > colon {
      assert s[p] == version[p - colon - 1];
    }
  }

  lemma SeparatorNotBefore(k: ChartKey, r: string, q: nat)
    requires ReadableChart(k)
    requires var s := ChartText(k) + (SEPARATOR + r); q + 12 <= |s| && SeparatorAt(s, q)
    ensures q >= |ChartText(k)|
  {
    var vt := ToText(k.version);
    ToTextChars(k.version);
    assert ChartText(k) + (SEPARATOR + r) == k.repoUrl + ['/'] + k.chartName + [':'] + vt + (SEPARATOR + r);
    if q < |ChartText(k)| {
      NoSeparatorInside(k.repoUrl, k.chartName, vt, SEPARATOR + r, q);
    }
  }

  lemma SeparatorHere(a: string, r: string)
    ensures SeparatorAt(a + (SEPARATOR + r), |a|)
  {
    var s := a + (SEPARATOR + r);
    assert s[|a|..|a| + |SEPARATOR|] == SEPARATOR;
    SeparatorShape(s, |a|);
  }

  lemma SameLengthSplit(a: string, b: string, r: string, r': string)
    requires |a| == |b| && a + (SEPARATOR + r) == b + (SEPARATOR + r')
    ensures a == b && r == r'
  {
    var s := a + (SEPARATOR + r);
    assert s[..|a|] == a && s[..|b|] == b;
    assert s[|a| + |SEPARATOR|..] == r && s[|b| + |SEPARATOR|..] == r';
  }

  lemma SplitAtSeparator(k: ChartKey, k': ChartKey, r: string, r': string)
    requires ReadableChart(k) && ReadableChart(k')
    requires ChartText(k) + (SEPARATOR + r) == ChartText(k') + (SEPARATOR + r')
    ensures ChartText(k) == ChartText(k') && r == r'
  {
    SeparatorHere(ChartText(k), r);
    SeparatorHere(ChartText(k'), r');
    SeparatorNotBefore(k, r, |ChartText(k')|);
    SeparatorNotBefore(k', r', |ChartText(k)|);
    SameLengthSplit(ChartText(k), ChartText(k'), r, r');
  }

  lemma ChartTextReads(app: Application, v: Version, app': Application, v': Version)
    requires ReadableChart(KeyOf(app, v)) && ReadableChart(KeyOf(app', v'))
    requires ChartText(KeyOf(app, v)) == ChartText(KeyOf(app', v'))
    ensures ChartPath(app) == ChartPath(app') && v == v'
  {
    ToTextChars(v);
    ToTextChars(v');
    SplitLast(':', ChartPath(app), ToText(v), ChartPath(app'), ToText(v'));
    ToTextInjective(v, v');
  }

  lemma InstanceTextInjective(app: Application, app': Application)
    requires Free(app.namespace, '/') && Free(app'.namespace, '/') && Free(app.name, ' ') && Free(app'.name, ' ')
    requires InstanceText(InstanceOf(app)) == InstanceText(InstanceOf(app'))
    ensures InstanceOf(app) == InstanceOf(app')
  {
    var i, j := InstanceOf(app), InstanceOf(app');
    var tail := "(" + i.instanceId + ") " + i.releaseName + " values{" + i.valuesYaml + "}";
    var tail' := "(" + j.instanceId + ") " + j.releaseName + " values{" + j.valuesYaml + "}";
    SplitFirst('/', i.namespace, i.name + [' '] + tail, j.namespace, j.name + [' '] + tail');
    SplitFirst(' ', i.name, tail, j.name, tail');
    var head := "(" + i.instanceId + ") " + i.releaseName + " values{";
    assert tail == head + i.valuesYaml + "}" && tail' == head + j.valuesYaml + "}";
    assert tail[|head|..|tail| - 1] == i.valuesYaml && tail'[|head|..|tail| - 1] == j.valuesYaml;
  }

  // Exactly when two keys share a text: same version and instance, and the same path of repository and chart name,
  // which need not have been split in the same place.
  lemma SameKeyTextExactlyWhen(app: Application, v: Version, app': Application, v': Version)
    requires Readable(app, v) && Readable(app', v')
    ensures KeyText(KeyOf(app, v), InstanceOf(app)) == KeyText(KeyOf(app', v'), InstanceOf(app')) <==>
      ChartPath(app) == ChartPath(app') && v == v' && InstanceOf(app) == InstanceOf(app')
  {
    if KeyText(KeyOf(app, v), InstanceOf(app)) == KeyText(KeyOf(app', v'), InstanceOf(app')) {
      KeyTextReads(app, v, app', v');
    }
  }

  lemma KeyTextReads(app: Application, v: Version, app': Application, v': Version)
    requires Readable(app, v) && Readable(app', v')
    requires KeyText(KeyOf(app, v), InstanceOf(app)) == KeyText(KeyOf(app', v'), InstanceOf(app'))
    ensures ChartPath(app) == ChartPath(app') && v == v' && InstanceOf(app) == InstanceOf(app')
  {
    var t, t' := InstanceText(InstanceOf(app)), InstanceText(InstanceOf(app'));
    var s := ChartText(KeyOf(app, v)) + (SEPARATOR + (t + "}"));
    var s' := ChartText(KeyOf(app', v')) + (SEPARATOR + (t' + "}"));
    assert (PREFIX + s)[|PREFIX|..] == s && (PREFIX + s')[|PREFIX|..] == s';
    SplitAtSeparator(KeyOf(app, v), KeyOf(app', v'), t + "}", t' + "}");
    assert (t + "}")[..|t|] == t && (t' + "}")[..|t'|] == t';
    ChartTextReads(app, v, app', v');
    InstanceTextInjective(app, app');
  }

  // Without slashes in chart names the text determines the key.
  lemma KeyTextInjective(app: Application, v: Version, app': Application, v': Version)
    requires Legal(app, v) && Legal(app', v')
    requires KeyText(KeyOf(app, v), InstanceOf(app)) == KeyText(KeyOf(app', v'), InstanceOf(app'))
    ensures KeyOf(app, v) == KeyOf(app', v') && InstanceOf(app) == InstanceOf(app')
  {
    KeyTextReads(app, v, app', v');
    SplitLast('/', app.repoUrl, app.chartName, app'.repoUrl, app'.chartName);
  }

  // With them it does not: whenever a chart name has a slash, moving the part before it into the repository URL
  // gives another key with the same text, which is as readable if that part has no comma.
  lemma AmbiguousWithSlash(app: Application, v: Version, head: string, tail: string)
    requires app.chartName == head + ['/'] + tail
    ensures var app' := app.(repoUrl := app.repoUrl + ['/'] + head, chartName := tail);
      && KeyOf(app, v) != KeyOf(app', v)
      && KeyText(KeyOf(app, v), InstanceOf(app)) == KeyText(KeyOf(app', v), InstanceOf(app'))
      && (Readable(app, v) && Free(head, ',') ==> Readable(app', v))
  {
    var app' := app.(repoUrl := app.repoUrl + ['/'] + head, chartName := tail);
    assert forall i :: 0 <= i < |tail| ==> tail[i] == app.chartName[|head| + 1 + i];
    assert |app'.repoUrl| > |app.repoUrl|;
    assert ChartPath(app) == ChartPath(app');
  }

  class Applications<R> {
    // A deterministic renderer; None stands for a failed rendering.
    const render: (ChartKey, Instance) -> Option<R>
    var appCache: map<string, map<string, CachedApp<R>>>

    ghost predicate Sound(text: string, entry: CachedApp<R>)
    {
      && Legal(entry.application, entry.chartKey.version)
      && entry.chartKey == KeyOf(entry.application, entry.chartKey.version)
      && entry.instance == InstanceOf(entry.application)
      && text == KeyText(entry.chartKey, entry.instance)
      && render(entry.chartKey, entry.instance) == Some(entry.rendered)
    }

    // Every entry is what a fresh rendering for its own text would give.
    ghost predicate Valid()
      reads this
    {
      forall a, t :: a in appCache && t in appCache[a] ==> Sound(t, appCache[a][t])
    }

    constructor (render: (ChartKey, Instance) -> Option<R>)
      ensures Valid() && this.render == render
    {
      this.render := render;
      appCache := map[];
    }

    // A hit or a miss, the answer is the fresh rendering of exactly this chart and instance. The application kept
    // with it may be an older copy, of the same name and namespace.
    method GetOrRenderAppVersion(app: Application, version: Version) returns (result: Option<CachedApp<R>>)
      requires Valid() && Legal(app, version)
      modifies this
      ensures Valid()
      ensures result.None? <==>
        render(ChartKey(app.repoUrl, app.chartName, version),
               Instance(app.namespace + "-" + app.name, app.name, app.namespace, app.name, app.valuesYaml)).None?
      ensures result.Some? ==>
        && result.value.chartKey == ChartKey(app.repoUrl, app.chartName, version)
        && result.value.instance ==
             Instance(app.namespace + "-" + app.name, app.name, app.namespace, app.name, app.valuesYaml)
        && render(result.value.chartKey, result.value.instance) == Some(result.value.rendered)
        && result.value.application.name == app.name && result.value.application.namespace == app.namespace
    {
      var appKey := app.name + "-" + app.namespace;
      var chartKey, instance := KeyOf(app, version), InstanceOf(app);
      if appKey !in appCache {
        appCache := appCache[appKey := map[]];
      }
      var text := KeyText(chartKey, instance);
      var instances := appCache[appKey];
      if text in instances {
        assert Sound(text, instances[text]);
        KeyTextInjective(app, version, instances[text].application, instances[text].chartKey.version);
        return Some(instances[text]);
      }
      var rendered := render(chartKey, instance);
      if rendered.None? {
        return None;
      }
      var entry := CachedApp(app, chartKey, instance, rendered.value);
      appCache := appCache[appKey := instances[text := entry]];
      result := Some(entry);
    }
  }
}
