/**
 * Discovering locally installed Ollama models (src-tauri/src/ollama.rs).
 *
 * The directory walk is given: the entries below the `manifests` directory, in
 * walk order, each with whether it is a regular file and its path components
 * relative to `manifests`.
 */
module Ollama {
  import opened Wrappers

  /** One entry of the recursive walk. */
  datatype WalkEntry = WalkEntry(isFile: bool, components: seq<string>)

  /** The models directory: whether it has a `manifests` subdirectory, and that walk. */
  datatype ModelsDir = ModelsDir(manifestsExists: bool, walk: seq<WalkEntry>)

  /** `model:tag` from the last two components, for paths of at least three components. */
  function ModelTag(components: seq<string>): (r: Option<string>)
    ensures r.Some? <==> |components| >= 3
    ensures r.Some? ==> r.value == components[|components| - 2] + ":" + components[|components| - 1]
  {
    if |components| >= 3 then
      Some(components[|components| - 2] + ":" + components[|components| - 1])
    else
      None
  }

  /** What one entry contributes: its name if it is a file with a long enough path. */
  function EntryNames(e: WalkEntry): seq<string> {
    if e.isFile && ModelTag(e.components).Some? then [ModelTag(e.components).value] else []
  }

  /** The names a walk yields, in walk order, duplicates kept. */
  function ModelNames(walk: seq<WalkEntry>): seq<string> {
    if walk == [] then []
    else ModelNames(walk[..|walk| - 1]) + EntryNames(walk[|walk| - 1])
  }

  /** The result of `scan_models`: empty without a models or a manifests directory. */
  function ScanResult(dir: Option<ModelsDir>): seq<string> {
    match dir
    case None => []
    case Some(d) => if d.manifestsExists then ModelNames(d.walk) else []
  }

  /** `scan_models`: collect `model:tag` for every qualifying file of the walk. */
  method ScanModels(dir: Option<ModelsDir>) returns (models: seq<string>)
    ensures models == ScanResult(dir)
    ensures dir.None? ==> models == []
    ensures dir.Some? && !dir.value.manifestsExists ==> models == []
  {
    models := [];
    if dir.None? {
      return;
    }
    var base := dir.value;
    if !base.manifestsExists {
      return;
    }
    var walk := base.walk;
    for i := 0 to |walk|
      invariant models == ModelNames(walk[..i])
    {
      var entry := walk[i];
      assert walk[..i + 1][..i] == walk[..i];
      if entry.isFile {
        var components := entry.components;
        if |components| >= 3 {
          var tag := components[|components| - 1];
          var model := components[|components| - 2];
          models := models + [model + ":" + tag];
        }
      }
    }
    assert walk[..|walk|] == walk;
  }

  /** Scanning two parts of a walk one after the other: the names concatenate, in order. */
  lemma {:induction false} ModelNamesAppend(a: seq<WalkEntry>, b: seq<WalkEntry>)
    ensures ModelNames(a + b) == ModelNames(a) + ModelNames(b)
    decreases |b|
  {
    if b == [] {
      assert a + b == a;
    } else {
      assert (a + b)[..|a + b| - 1] == a + b[..|b| - 1];
      ModelNamesAppend(a, b[..|b| - 1]);
    }
  }

  /** At most one name per walk entry. */
  lemma {:induction false} ModelNamesBound(walk: seq<WalkEntry>)
    ensures |ModelNames(walk)| <= |walk|
    decreases |walk|
  {
    if walk != [] {
      ModelNamesBound(walk[..|walk| - 1]);
    }
  }

  /** Every name comes from some regular file of the walk with at least three components. */
  lemma {:induction false} ModelNamesFromFiles(walk: seq<WalkEntry>, name: string)
    requires name in ModelNames(walk)
    ensures exists i :: 0 <= i < |walk| && walk[i].isFile && ModelTag(walk[i].components) == Some(name)
    decreases |walk|
  {
    var init := walk[..|walk| - 1];
    if name in ModelNames(init) {
      ModelNamesFromFiles(init, name);
      var i :| 0 <= i < |init| && init[i].isFile && ModelTag(init[i].components) == Some(name);
      assert walk[i] == init[i];
    } else {
      assert walk[|walk| - 1].isFile && ModelTag(walk[|walk| - 1].components) == Some(name);
    }
  }

  /** A one-entry walk yields exactly that entry's names. */
  lemma ModelNamesSingleton(e: WalkEntry)
    ensures ModelNames([e]) == EntryNames(e)
  {
    assert [e][..0] == [];
  }

  /** Every regular file with at least three components contributes its name. */
  lemma {:induction false} FileNamesIncluded(walk: seq<WalkEntry>, i: nat)
    requires i < |walk| && walk[i].isFile && |walk[i].components| >= 3
    ensures ModelTag(walk[i].components).value in ModelNames(walk)
  {
    var before, rest := walk[..i], walk[i + 1..];
    assert walk == before + ([walk[i]] + rest);
    ModelNamesAppend([walk[i]], rest);
    ModelNamesAppend(before, [walk[i]] + rest);
    ModelNamesSingleton(walk[i]);
    assert ModelNames(walk) == ModelNames(before) + (EntryNames(walk[i]) + ModelNames(rest));
  }

  /** A walk that meets only directories yields nothing. */
  lemma DirectoriesYieldNothing(walk: seq<WalkEntry>)
    requires forall i :: 0 <= i < |walk| ==> !walk[i].isFile
    ensures ModelNames(walk) == []
  {
    if ModelNames(walk) != [] {
      ModelNamesFromFiles(walk, ModelNames(walk)[0]);
    }
  }

  /** No deduplication: a manifest seen twice is listed twice. */
  lemma DuplicatesKept(walk: seq<WalkEntry>)
    ensures ModelNames(walk + walk) == ModelNames(walk) + ModelNames(walk)
  {
    ModelNamesAppend(walk, walk);
  }
}
