/** The manifest of a folder: the digest of every file in it, written before anyone reads it. */
module Manifests {
  import opened Wrappers
  import opened Protocols

  /** `path.name != MANIFEST_FILE`: the test is on the last name, so it also leaves out a file of that
      name in any subfolder. */
  predicate Covered(path: Path) {
    !path.ManifestIn?
  }

  function Listing(folder: Folder): map<Path, Sha> {
    map path | path in folder && Covered(path) :: Sha(folder[path])
  }

  const MANIFEST: Path := ManifestIn([])

  /** `write_manifest`: the folder with its manifest, and the manifest's own digest. */
  function WriteManifest(folder: Folder): (r: (Folder, Sha)) {
    var manifest := Manifest(Listing(folder));
    (folder[MANIFEST := manifest], Sha(manifest))
  }

  datatype Problem = NoManifest | NotAManifest | Differs(path: Path) | MissingFile(path: Path)

  /** `verify_manifest`: files that differ from the manifest, that it does not list, or that are gone. */
  function VerifyManifest(folder: Folder): set<Problem> {
    if MANIFEST !in folder then {NoManifest}
    else if !folder[MANIFEST].Manifest? then {NotAManifest}
    else
      var listed := folder[MANIFEST].listing;
      (set path | path in folder && Covered(path) && (path !in listed || listed[path] != Sha(folder[path]))
        :: Differs(path))
      + (set path | path in listed && !(path in folder && Covered(path)) :: MissingFile(path))
  }

  /** No problem is reported exactly when the manifest is the listing of the folder as it now is. */
  lemma VerifiedExactly(folder: Folder)
    ensures VerifyManifest(folder) == {} <==> MANIFEST in folder && folder[MANIFEST] == Manifest(Listing(folder))
  {
    if MANIFEST in folder && folder[MANIFEST].Manifest? {
      var listed := folder[MANIFEST].listing;
      if VerifyManifest(folder) == {} {
        forall path ensures path in listed <==> path in Listing(folder) {
          assert Differs(path) !in VerifyManifest(folder);
          assert MissingFile(path) !in VerifyManifest(folder);
        }
        forall path | path in listed ensures listed[path] == Listing(folder)[path] {
          assert Differs(path) !in VerifyManifest(folder);
        }
      }
    }
  }

  /** What was just written verifies, whatever the folder held, an older manifest included. */
  lemma WriteThenVerify(folder: Folder)
    ensures VerifyManifest(WriteManifest(folder).0) == {}
    ensures WriteManifest(folder).0[MANIFEST] == WriteManifest(folder).1.of
    ensures forall path | path != MANIFEST ::
              (path in folder <==> path in WriteManifest(folder).0)
              && (path in folder ==> WriteManifest(folder).0[path] == folder[path])
  {
    var after := WriteManifest(folder).0;
    assert Listing(after) == Listing(folder);
    VerifiedExactly(after);
  }

  /** Two folders that verify under one manifest digest hold the same covered files with the same
      contents; they are equal throughout exactly when their nested manifest files are too. */
  lemma ManifestPinsTheFolder(f: Folder, g: Folder)
    requires VerifyManifest(f) == {} && VerifyManifest(g) == {}
    requires Sha(f[MANIFEST]) == Sha(g[MANIFEST])
    ensures forall path | Covered(path) :: (path in f <==> path in g) && (path in f ==> f[path] == g[path])
    ensures f == g <==> Uncovered(f) == Uncovered(g)
  {
    VerifiedExactly(f);
    VerifiedExactly(g);
    forall path | Covered(path) ensures (path in f <==> path in g) && (path in f ==> f[path] == g[path]) {
      assert path in f <==> path in Listing(f);
      assert path in g <==> path in Listing(g);
    }
    if Uncovered(f) == Uncovered(g) {
      forall path ensures (path in f <==> path in g) && (path in f ==> f[path] == g[path]) {
        if !Covered(path) && path != MANIFEST {
          assert path in f <==> path in Uncovered(f);
          assert path in g <==> path in Uncovered(g);
        }
      }
      assert f == g;
    }
  }

  /** The files of a folder that its own manifest does not cover: manifests of subfolders. */
  function Uncovered(folder: Folder): Folder {
    map path | path in folder && !Covered(path) && path != MANIFEST :: folder[path]
  }

  /** A file the manifest never sees: it can be added after the manifest was recorded and the folder
      still verifies under the same digest. */
  lemma NestedManifestIsNotSeen(f: Folder, dir: seq<string>, c: Content)
    requires VerifyManifest(f) == {} && dir != [] && ManifestIn(dir) !in f
    ensures var g := f[ManifestIn(dir) := c];
            g != f && VerifyManifest(g) == {} && g[MANIFEST] == f[MANIFEST]
  {
    var g := f[ManifestIn(dir) := c];
    VerifiedExactly(f);
    assert Listing(g) == Listing(f);
    VerifiedExactly(g);
  }

  /** `_verify_folder`: the folder against its manifest, and the manifest against the recorded digest. */
  predicate FolderVerified(folder: Option<Folder>, recorded: Option<Sha>) {
    && recorded.Some? && folder.Some?
    && VerifyManifest(folder.value) == {}
    && Sha(folder.value[MANIFEST]) == recorded.value
  }
}
