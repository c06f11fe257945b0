/** The canonical identification of a model in a TensorIO models repository:
    the triple (model id, hyperparameters id, checkpoint id), either built
    directly or parsed out of a model bundle's id of the form

      tio:///models/<model-id>/hyperparameters/<hyperparameters-id>/checkpoints/<checkpoint-id>

    The datatype constructor `ModelIdentifier(m, h, c)` is the designated
    initializer: it stores the three ids unchanged and they cannot be
    reassigned. */
module FleaModelIdentifier {
  import opened Wrappers
  import opened Sequences

  datatype ModelIdentifier = ModelIdentifier(modelId: string, hyperparametersId: string, checkpointId: string)

  /** The scheme and first path segment every repository bundle id starts with. */
  const Prefix: string := "tio:///models/"

  /** One component of a bundle id: a non-empty path segment. */
  predicate ValidComponent(c: string)
  {
    c != "" && '/' !in c
  }

  /** A triple that can be written as a bundle id and read back. */
  predicate WellFormed(id: ModelIdentifier)
  {
    ValidComponent(id.modelId) && ValidComponent(id.hyperparametersId) && ValidComponent(id.checkpointId)
  }

  // ---------------------------------------------------------------------------
  // Path segments

  /** Splits a path at every '/'; a path with k slashes has k + 1 segments. */
  function Split(s: string): (r: seq<string>)
    ensures |r| >= 1
    decreases |s|
  {
    if s == [] then [""]
    else if s[0] == '/' then [""] + Split(s[1..])
    else
      var t := Split(s[1..]);
      [[s[0]] + t[0]] + t[1..]
  }

  /** Joins path segments with '/'. */
  function Join(parts: seq<string>): string
    requires |parts| >= 1
    decreases |parts|
  {
    if |parts| == 1 then parts[0] else parts[0] + "/" + Join(parts[1..])
  }

  lemma {:induction false} SplitSegmentsHaveNoSlash(s: string)
    ensures forall i :: 0 <= i < |Split(s)| ==> '/' !in Split(s)[i]
    decreases |s|
  {
    if s != [] {
      SplitSegmentsHaveNoSlash(s[1..]);
      if s[0] != '/' {
        var t := Split(s[1..]);
        assert '/' !in t[0];
        assert '/' !in [s[0]] + t[0];
      }
    }
  }

  lemma {:induction false} SplitWithoutSlash(p: string)
    requires '/' !in p
    ensures Split(p) == [p]
    decreases |p|
  {
    if p != [] {
      SplitWithoutSlash(p[1..]);
      assert [p[0]] + p[1..] == p;
    }
  }

  lemma {:induction false} SplitAtFirstSlash(p: string, t: string)
    requires '/' !in p
    ensures Split(p + "/" + t) == [p] + Split(t)
    decreases |p|
  {
    var s := p + "/" + t;
    if p == [] {
      assert s[1..] == t;
    } else {
      assert s[0] == p[0];
      assert s[1..] == p[1..] + "/" + t;
      SplitAtFirstSlash(p[1..], t);
      assert [p[0]] + p[1..] == p;
    }
  }

  /** Splitting undoes joining, for segments without a slash. */
  lemma {:induction false} SplitJoin(parts: seq<string>)
    requires |parts| >= 1
    requires forall i :: 0 <= i < |parts| ==> '/' !in parts[i]
    ensures Split(Join(parts)) == parts
    decreases |parts|
  {
    if |parts| == 1 {
      SplitWithoutSlash(parts[0]);
    } else {
      SplitJoin(parts[1..]);
      SplitAtFirstSlash(parts[0], Join(parts[1..]));
      assert [parts[0]] + parts[1..] == parts;
    }
  }

  lemma SlashAssoc(a: string, b: string, d: string)
    ensures (a + b) + "/" + d == a + (b + "/" + d)
  {
  }

  /** Putting a character in front of the first segment puts it in front of
      the joined path. */
  lemma JoinExtendsFirst(c: char, t: seq<string>)
    requires |t| >= 1
    ensures Join([[c] + t[0]] + t[1..]) == [c] + Join(t)
  {
    var x := t[0];
    var r := [[c] + x] + t[1..];
    if |t| == 1 {
      assert |r| == 1 && r[0] == [c] + x;
      assert Join(r) == [c] + x;
    } else {
      var rest := t[1..];
      assert r[0] == [c] + x && r[1..] == rest;
      SlashAssoc([c], x, Join(rest));
    }
  }

  /** Joining undoes splitting, for every path. */
  lemma {:induction false} JoinSplit(s: string)
    ensures Join(Split(s)) == s
    decreases |s|
  {
    if s != [] {
      JoinSplit(s[1..]);
      var t := Split(s[1..]);
      if s[0] == '/' {
        assert Split(s) == [""] + t;
        assert ([""] + t)[1..] == t;
        assert Join(Split(s)) == "/" + s[1..];
      } else {
        JoinExtendsFirst(s[0], t);
      }
      assert [s[0]] + s[1..] == s;
    }
  }

  // ---------------------------------------------------------------------------
  // Rendering and parsing

  /** The five segments after the prefix. */
  function Segments(id: ModelIdentifier): seq<string>
  {
    [id.modelId, "hyperparameters", id.hyperparametersId, "checkpoints", id.checkpointId]
  }

  /** The canonical bundle id of a triple. */
  function Render(id: ModelIdentifier): string
  {
    Prefix + id.modelId + "/hyperparameters/" + id.hyperparametersId + "/checkpoints/" + id.checkpointId
  }

  /** The two fixed separators of a rendering are path segments between
      slashes. */
  lemma SeparatorLiterals()
    ensures "/" + ("hyperparameters" + "/") == "/hyperparameters/"
    ensures "/" + ("checkpoints" + "/") == "/checkpoints/"
  {
  }

  lemma RenderJoinsSegments(id: ModelIdentifier)
    ensures Render(id) == Prefix + Join(Segments(id))
  {
    var segs := Segments(id);
    var m, h, k := id.modelId, id.hyperparametersId, id.checkpointId;
    var S, C := "/hyperparameters/", "/checkpoints/";
    SeparatorLiterals();
    // The rendering, nested to the right.
    AppendAssoc(Prefix + m + S + h, C, k);
    AppendAssoc(Prefix + m + S, h, C + k);
    AppendAssoc(Prefix + m, S, h + (C + k));
    AppendAssoc(Prefix, m, S + (h + (C + k)));
    // The joined segments, from the back.
    var t3 := ["checkpoints", k];
    var t2 := [h] + t3;
    var t1 := ["hyperparameters"] + t2;
    assert t3[1..] == [k] && t2[1..] == t3 && t1[1..] == t2 && segs[1..] == t1;
    var j3 := Join(t3);
    assert Join([k]) == k;
    assert j3 == t3[0] + "/" + Join(t3[1..]);
    assert j3 == ("checkpoints" + "/") + k;
    AppendAssoc("/", "checkpoints" + "/", k);
    var j2 := Join(t2);
    assert j2 == (h + "/") + j3;
    AppendAssoc(h, "/", j3);
    var j1 := Join(t1);
    assert j1 == ("hyperparameters" + "/") + j2;
    AppendAssoc("/", "hyperparameters" + "/", j2);
    assert Join(segs) == (m + "/") + j1;
    AppendAssoc(m, "/", j1);
  }

  /** `initWithBundleId:`: the triple named by a bundle id, or `None` when the
      id does not have the canonical form. */
  function Parse(bundleId: string): (r: Option<ModelIdentifier>)
    ensures r.Some? ==> WellFormed(r.value)
  {
    if |bundleId| >= |Prefix| && bundleId[..|Prefix|] == Prefix then
      var segs := Split(bundleId[|Prefix|..]);
      SplitSegmentsHaveNoSlash(bundleId[|Prefix|..]);
      if |segs| == 5 && segs[1] == "hyperparameters" && segs[3] == "checkpoints"
         && segs[0] != "" && segs[2] != "" && segs[4] != ""
      then Some(ModelIdentifier(segs[0], segs[2], segs[4]))
      else None
    else None
  }

  /** Parsing the canonical rendering of a well-formed triple gives back exactly
      that triple. */
  lemma ParseRender(id: ModelIdentifier)
    requires WellFormed(id)
    ensures Parse(Render(id)) == Some(id)
  {
    var s := Render(id);
    RenderJoinsSegments(id);
    assert s[..|Prefix|] == Prefix;
    assert s[|Prefix|..] == Join(Segments(id));
    SplitJoin(Segments(id));
  }

  /** A parsed bundle id is byte-identical to the rendering of its triple: the
      components are exactly the segments after `models/`, `hyperparameters/`
      and `checkpoints/`. */
  lemma RenderParse(bundleId: string, id: ModelIdentifier)
    requires Parse(bundleId) == Some(id)
    ensures Render(id) == bundleId
  {
    var rest := bundleId[|Prefix|..];
    var segs := Split(rest);
    JoinSplit(rest);
    assert segs == Segments(id);
    RenderJoinsSegments(id);
    assert bundleId == bundleId[..|Prefix|] + rest;
  }

  /** Parsing succeeds exactly on the renderings of well-formed triples. */
  lemma ParseExactlyRenderings(bundleId: string, id: ModelIdentifier)
    ensures Parse(bundleId) == Some(id) <==> WellFormed(id) && bundleId == Render(id)
  {
    if Parse(bundleId) == Some(id) {
      RenderParse(bundleId, id);
    }
    if WellFormed(id) && bundleId == Render(id) {
      ParseRender(id);
    }
  }

  /** A bundle id with a single path segment after `models/` does not match. */
  lemma ParseRejectsSingleSegment(name: string)
    requires '/' !in name
    ensures Parse(Prefix + name) == None
  {
    var s := Prefix + name;
    assert s[..|Prefix|] == Prefix;
    assert s[|Prefix|..] == name;
    SplitWithoutSlash(name);
  }

  /** For instance `tio:///models/onlyOnePart` is not a repository bundle id. */
  lemma ParseRejectsOnlyOnePart()
    ensures Parse("tio:///models/onlyOnePart") == None
  {
    assert "tio:///models/onlyOnePart" == Prefix + "onlyOnePart";
    ParseRejectsSingleSegment("onlyOnePart");
  }
}
