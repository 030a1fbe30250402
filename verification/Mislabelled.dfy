/** A concrete upstream on which the cache does change an answer: Chart.yaml declares a version the index does not
    list. */
module Mislabelled {
  import opened Wrappers
  import Text
  import opened Metadata
  import opened Oci
  import opened Upstreams
  import opened Rewriting
  import opened Resolvers
  import opened Sessions
  import opened Transparency

  /** A hash without collisions: the bytes themselves, as characters. */
  function Spell(b: Bytes): string {
    seq(|b|, i requires 0 <= i < |b| => b[i] as char)
  }

  /** Every tarball holds one Chart.yaml saying: name demo, version 2.0. */
  function DemoCodec(): Codec {
    Codec(
      (b: Bytes) => Spell(b),
      (b: Bytes) => Some(Archive([TarEntry("d/Chart.yaml", "", b)], false)),
      (_: Bytes) => Some(Map(false, [Field("name", "demo"), Field("version", "2.0")])),
      (_: Json) => Some([]),
      (_: Manifest) => [],
      (_: Bytes) => None)
  }

  function Field(key: string, value: string): Entry {
    Entry(Scalar(Kind.Text, key), Leaf(Scalar(Kind.Text, value)))
  }

  function DemoSetup(): Setup {
    Setup(
      DemoCodec(),
      Tools((_: Bytes) => None, (_: Node) => None, (_: seq<TarEntry>) => None, (_: string) => None),
      (_: string, _: string) => Some("https://demo.example/demo.tgz"),
      Options(false, 25, 1000, 1000, None, ""))
  }

  /** An index that lists only version 1.0 of the chart. */
  function DemoSite(): Site {
    Site(
      (_: string) => Ok(Index(map["demo" := [IndexEntry("1.0", ["demo.tgz"], "")]])),
      (_: string) => Reply(200, []))
  }

  lemma DemoCollisionFree()
    ensures CollisionFree(DemoCodec())
  {
    forall a, b | Spell(a) == Spell(b) ensures a == b {
      forall i | 0 <= i < |a| ensures a[i] == b[i] {
        assert Spell(a)[i] == Spell(b)[i];
        assert a[i] as char as int == b[i] as char as int;
      }
    }
  }

  lemma DemoChartYaml()
    ensures IsChartYaml("d/Chart.yaml")
  {
    var name := "d/Chart.yaml";
    assert "./"[0] == '.' && name[0] == 'd';
    assert Text.TrimPrefix(name, "./") == name;
    assert Text.IndexOf(name, '/') == 1;
    assert name[..1] == "d" && name[2..] == "Chart.yaml";
  }

  lemma DemoMetadata()
    ensures ChartMetadata(DemoCodec(), []) == Ok(Map(false, [Field("name", "demo"), Field("version", "2.0")]))
  {
    DemoChartYaml();
    var v := Map(false, [Field("name", "demo"), Field("version", "2.0")]);
    assert StringKeyed(v);
    NormalizeFixes(v);
  }

  lemma DemoBuild()
    ensures Build(DemoCodec(), [], None).Ok? && Build(DemoCodec(), [], None).value.version == "2.0"
  {
    DemoMetadata();
    var fields := [Field("name", "demo"), Field("version", "2.0")];
    assert fields[1..] == [Field("version", "2.0")];
    assert StringEntry(fields, "name") == "demo";
    assert StringEntry(fields, "version") == "2.0";
  }

  lemma DemoVersions()
    ensures var k, u := DemoSetup(), DemoSite();
      && ColdVersion(k, u, "r", "demo", "1.0").Ok?
      && ColdVersion(k, u, "r", "demo", "1.0").value.version == "2.0"
      && ColdVersion(k, u, "r", "demo", "2.0") == Err(VersionUnknown)
  {
    hide Build;
    DemoBuild();
  }

  /** After a pull of 1.0 the replica answers 2.0, which a cold replica does not know. */
  lemma CacheChangesAnswer()
    ensures var k, u := DemoSetup(), DemoSite();
      var s := Run(k, Frozen(u), COLD, [VersionRequest("r", "demo", "1.0")]);
      && VersionStep(k, Frozen(u), s, "r", "demo", "2.0").1.Ok?
      && ColdVersion(k, u, "r", "demo", "2.0") == Err(VersionUnknown)
      && CollisionFree(k.codec) && !Unmistaken(k, u, "r", "demo", "2.0")
  {
    hide ColdVersion, VersionStep, Run;
    DemoCollisionFree();
    DemoVersions();
    FrozenSteady(DemoSetup(), DemoSite(), "r", "demo");
    DeclaredVersionCached(DemoSetup(), Frozen(DemoSite()), DemoSite(), "r", "demo", "1.0");
    assert Declares(DemoSetup(), DemoSite(), "r", "demo", "1.0", "2.0");
  }
}
