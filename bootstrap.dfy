/**
 * The string, list and set logic of the dependency bootstrap script
 * (scripts/bootstrap.py): renaming versioned shared libraries to a name the
 * Android package manager unpacks (libfoo.so.1 becomes libfoo_1.so), the list
 * of SONAME replacements patched into the binaries, the NEEDED/SONAME report,
 * the ABI directory for an architecture and the filter applied when copying
 * JNI libraries. File, archive and subprocess I/O is not modelled: the ELF
 * data readelf would print is given as values.
 */
module Bootstrap {
  import opened Wrappers
  import opened PyStr

  /** The exceptions the script can raise in the modelled code. */
  datatype Error =
    | AssertionError            // a failed `assert`
    | TypeError                 // None used where a string is needed
    | ArchitectureNotSupported  // Exception('Architecture not supported')

  // ---------------------------------------------------------------------------
  // SONAME renaming
  // ---------------------------------------------------------------------------

  /**
   * __adjust_soname. Ok(None) is the function falling off its end (returning
   * None); Err(AssertionError) is the `assert len(split) > 2`.
   */
  function AdjustSoname(initial: string): (r: Result<Option<string>, Error>)
    ensures EndsWith(initial, ".so") ==> r == Ok(Some(initial))
    ensures r.Err? <==> !EndsWith(initial, ".so") && Occurrences(initial, '.') < 2
    ensures r.Err? ==> r.error == AssertionError
    ensures r.Ok? && r.value.Some? ==> EndsWith(r.value.value, ".so")
    ensures !EndsWith(initial, ".so") && Occurrences(initial, '.') >= 2 ==>
      var split := Split(initial, '.');
      (r == Ok(None) <==> split[|split| - 2] != "so" && split[|split| - 3] != "so")
  {
    if EndsWith(initial, ".so") then Ok(Some(initial))
    else
      var split := Split(initial, '.');
      var n := |split|;
      if n <= 2 then Err(AssertionError)
      else if split[n - 2] == "so" then
        Ok(Some(WithSoSuffix(Join(split[..n - 2], '.') + "_" + split[n - 1])))
      else if split[n - 3] == "so" then
        Ok(Some(WithSoSuffix(Join(split[..n - 3], '.') + "_" + split[n - 2] + "_" + split[n - 1])))
      else Ok(None)
  }

  /** base + ".so". */
  function WithSoSuffix(base: string): (r: string)
    ensures EndsWith(r, ".so") && |r| == |base| + 3 && r[..|base|] == base
  {
    var r := base + ".so";
    assert r[|r| - 3..] == ".so";
    r
  }

  /**
   * A name of the form so.X.Y with nothing before "so": the one input for which
   * the rename does not keep the length, because there is no dot before "so"
   * for the first underscore to take the place of.
   */
  predicate BareSoVersion(s: string) {
    && !EndsWith(s, ".so")
    && var parts := Split(s, '.');
    && |parts| == 3 && parts[0] == "so" && parts[1] != "so"
  }

  /** The last two pieces of a split, joined back: s == Join(front) + "." + x + "." + y. */
  lemma SplitTail(s: string)
    requires |Split(s, '.')| >= 3
    ensures var p := Split(s, '.'); var n := |p|;
      s == Join(p[..n - 2], '.') + "." + p[n - 2] + "." + p[n - 1]
  {
    var p := Split(s, '.');
    var n := |p|;
    JoinSplit(s, '.');
    assert p == p[..n - 1] + [p[n - 1]];
    JoinSnoc(p[..n - 1], p[n - 1], '.');
    assert p[..n - 1] == p[..n - 2] + [p[n - 2]];
    JoinSnoc(p[..n - 2], p[n - 2], '.');
  }

  /**
   * Every name the rename produces has the length of the input, except for
   * the bare so.X.Y form, which grows by one: the equal-length assertion on
   * the replacement list holds for every other name.
   */
  lemma AdjustSonameLength(s: string)
    requires AdjustSoname(s).Ok? && AdjustSoname(s).value.Some?
    ensures |AdjustSoname(s).value.value| == |s| + (if BareSoVersion(s) then 1 else 0)
  {
    if !EndsWith(s, ".so") {
      var p := Split(s, '.');
      var n := |p|;
      SplitTail(s);
      if p[n - 2] == "so" {
      } else {
        assert p[n - 3] == "so";
        if n == 3 {
          assert p[..n - 3] == [] && p[..n - 2] == ["so"];
        } else {
          assert p[..n - 2] == p[..n - 3] + [p[n - 3]];
          JoinSnoc(p[..n - 3], p[n - 3], '.');
        }
      }
    }
  }

  /**
   * The exception to the equal-length rule: so.X.Y (for instance so.1.2) is
   * a bare so.X.Y name and becomes _X_Y.so, one character longer.
   */
  lemma BareSoVersionGrows(x: string, y: string)
    requires '.' !in x && '.' !in y && x != "so" && y != "so"
    ensures BareSoVersion("so." + x + "." + y)
    ensures AdjustSoname("so." + x + "." + y) == Ok(Some("_" + x + "_" + y + ".so"))
    ensures |"_" + x + "_" + y + ".so"| == |"so." + x + "." + y| + 1
  {
    var s := "so." + x + "." + y;
    assert s == "so" + "." + x + "." + y;
    assert s == ("so." + x + ".") + y;
    NotEndingInSo("so." + x + ".", y);
    SplitTwoPiecesAfter("so", x, y);
    SplitWithoutSeparator("so", '.');
    var split := Split(s, '.');
    assert split == ["so", x, y];
    assert split[1] != "so" && split[0] == "so";
    assert Join(split[..0], '.') == "";
    assert "" + "_" + x + "_" + y == "_" + x + "_" + y;
  }

  /** Renaming an already renamed name changes nothing. */
  lemma AdjustSonameIdempotent(s: string)
    requires AdjustSoname(s).Ok? && AdjustSoname(s).value.Some?
    ensures AdjustSoname(AdjustSoname(s).value.value) == AdjustSoname(s)
  {
  }

  /** Two dot-free pieces after p: p.a.b splits into the pieces of p, then a, then b. */
  lemma SplitTwoPiecesAfter(p: string, a: string, b: string)
    requires '.' !in a && '.' !in b
    ensures Split(p + "." + a + "." + b, '.') == Split(p, '.') + [a, b]
  {
    assert p + "." + a + "." + b == p + "." + (a + "." + b);
    SplitAround(p, a + "." + b, '.');
    SplitAround(a, b, '.');
    SplitWithoutSeparator(a, '.');
    SplitWithoutSeparator(b, '.');
  }

  /** A dot-free string other than "so", after a dot, cannot make a name end in ".so". */
  lemma NotEndingInSo(front: string, x: string)
    requires '.' !in x && x != "so"
    requires |front| >= 1 && front[|front| - 1] == '.'
    ensures !EndsWith(front + x, ".so")
  {
    var s := front + x;
    if |s| >= 3 {
      var k := |s| - 3;
      if |x| >= 3 {
        assert s[k..][0] == x[|x| - 3] != '.';
      } else if |x| == 2 {
        assert s[k..][1..] == x;
      } else if |x| == 1 {
        assert s[k..][1] == front[|front| - 1] == '.';
      } else {
        assert s[k..][2] == front[|front| - 1] == '.';
      }
    }
  }

  /** p.so.X becomes p_X.so. */
  lemma RenamesOneVersion(p: string, x: string)
    requires '.' !in x && x != "so"
    ensures AdjustSoname(p + ".so." + x) == Ok(Some(p + "_" + x + ".so"))
  {
    var s := p + ".so." + x;
    NotEndingInSo(p + ".so.", x);
    assert s == p + "." + "so" + "." + x;
    SplitTwoPiecesAfter(p, "so", x);
    var split := Split(s, '.');
    var n := |split|;
    assert split[n - 2] == "so" && split[n - 1] == x;
    assert split[..n - 2] == Split(p, '.');
    JoinSplit(p, '.');
  }

  /** p.so.X.Y becomes p_X_Y.so. */
  lemma RenamesTwoVersions(p: string, x: string, y: string)
    requires '.' !in x && '.' !in y && x != "so" && y != "so"
    ensures AdjustSoname(p + ".so." + x + "." + y) == Ok(Some(p + "_" + x + "_" + y + ".so"))
  {
    var s := p + ".so." + x + "." + y;
    assert s == (p + ".so." + x + ".") + y;
    NotEndingInSo(p + ".so." + x + ".", y);
    assert p + ".so." + x == p + "." + "so" + "." + x;
    SplitTwoPiecesAfter(p, "so", x);
    SplitAround(p + ".so." + x, y, '.');
    SplitWithoutSeparator(y, '.');
    var split := Split(s, '.');
    assert split == Split(p, '.') + ["so", x, y];
    var n := |split|;
    assert split[n - 3] == "so" && split[n - 2] == x && split[n - 1] == y;
    assert split[..n - 3] == Split(p, '.');
    JoinSplit(p, '.');
  }

  // ---------------------------------------------------------------------------
  // The replacement list and the library copy (__copy_libs)
  // ---------------------------------------------------------------------------

  /** A library found in the sysroot, with the SONAME readelf reports for it. */
  datatype Library = Library(path: string, soname: string)

  /** A (soname, adjusted) pair; `to` is None when the rename returned None. */
  datatype Replacement = Replacement(from: string, to: Option<string>)

  /** A library copied into the output directory under its adjusted name. */
  datatype Copy = Copy(source: string, name: string)

  /** The first loop of __copy_libs: pairs appended, copies made, and the exception that stopped it. */
  datatype Scan = Scan(added: seq<Replacement>, copies: seq<Copy>, failure: Option<Error>)

  /** The pair the list starts with; RenamesOneVersion("libnettle", "6") shows it is the rename's own result. */
  const NETTLE_SEED: Replacement := Replacement("libnettle.so.6", Some("libnettle_6.so"))

  /** `not install_list or lib_path in install_list`: an empty list installs everything. */
  predicate Installs(installList: Option<seq<string>>, path: string) {
    installList == None || installList.value == [] || path in installList.value
  }

  /** Every pair has a name on both sides, of equal length. */
  predicate Consistent(reps: seq<Replacement>) {
    forall i :: 0 <= i < |reps| ==> reps[i].to.Some? && |reps[i].to.value| == |reps[i].from|
  }

  /**
   * One pass of the first loop of __copy_libs for one library: a changed name
   * is recorded as a pair before anything else, an installed library is copied
   * under its new name, and a rename that raises, or gives None for an
   * installed library, stops the loop.
   */
  function ScanOne(lib: Library, installList: Option<seq<string>>): (scan: Scan)
    ensures |scan.added| <= 1 && |scan.copies| <= 1
    ensures scan.failure.Some? ==> scan.copies == []
    ensures var a := AdjustSoname(lib.soname);
      a.Err? ==> scan == Scan([], [], Some(a.error))
    ensures var a := AdjustSoname(lib.soname);
      scan.added != [] <==> a.Ok? && a.value != Some(lib.soname)
    ensures scan.added != [] ==> scan.added == [Replacement(lib.soname, AdjustSoname(lib.soname).value)]
    ensures var a := AdjustSoname(lib.soname);
      scan.copies != [] <==> a.Ok? && a.value.Some? && Installs(installList, lib.path)
    ensures scan.copies != [] ==> scan.copies == [Copy(lib.path, AdjustSoname(lib.soname).value.value)]
    ensures var a := AdjustSoname(lib.soname);
      scan.failure == Some(TypeError) <==> a.Ok? && a.value.None? && Installs(installList, lib.path)
  {
    match AdjustSoname(lib.soname)
    case Err(e) => Scan([], [], Some(e))
    case Ok(adjusted) =>
      var added := if adjusted != Some(lib.soname) then [Replacement(lib.soname, adjusted)] else [];
      if !Installs(installList, lib.path) then Scan(added, [], None)
      // os.path.join(lib_dir, None)
      else if adjusted == None then Scan(added, [], Some(TypeError))
      else Scan(added, [Copy(lib.path, adjusted.value)], None)
  }

  /** The first loop of __copy_libs over all libraries; the first exception stops it. */
  function ScanLibs(libs: seq<Library>, installList: Option<seq<string>>): Scan {
    if libs == [] then Scan([], [], None)
    else
      var front := ScanLibs(libs[..|libs| - 1], installList);
      if front.failure.Some? then front
      else
        var step := ScanOne(libs[|libs| - 1], installList);
        Scan(front.added + step.added, front.copies + step.copies, step.failure)
  }

  /** The scan of one more library. */
  lemma ScanLibsSnoc(libs: seq<Library>, installList: Option<seq<string>>, i: nat)
    requires i < |libs|
    ensures var front := ScanLibs(libs[..i], installList);
      var step := ScanOne(libs[i], installList);
      ScanLibs(libs[..i + 1], installList) ==
        if front.failure.Some? then front
        else Scan(front.added + step.added, front.copies + step.copies, step.failure)
  {
    assert libs[..i + 1][..i] == libs[..i] && libs[..i + 1][i] == libs[i];
  }

  /** Once a library raises, the libraries after it change nothing. */
  lemma {:induction false} ScanLibsStops(libs: seq<Library>, installList: Option<seq<string>>, k: nat)
    requires k <= |libs| && ScanLibs(libs[..k], installList).failure.Some?
    ensures ScanLibs(libs, installList) == ScanLibs(libs[..k], installList)
    decreases |libs|
  {
    if k < |libs| {
      var front := libs[..|libs| - 1];
      assert front[..k] == libs[..k];
      ScanLibsStops(front, installList, k);
    } else {
      assert libs[..k] == libs;
    }
  }

  /** Scanning more libraries only extends the pairs and the copies. */
  lemma {:induction false} ScanLibsPrefix(libs: seq<Library>, installList: Option<seq<string>>, k: nat)
    requires k <= |libs|
    ensures ScanLibs(libs[..k], installList).added <= ScanLibs(libs, installList).added
    ensures ScanLibs(libs[..k], installList).copies <= ScanLibs(libs, installList).copies
    decreases |libs|
  {
    if k < |libs| {
      var front := libs[..|libs| - 1];
      assert front[..k] == libs[..k];
      ScanLibsPrefix(front, installList, k);
    } else {
      assert libs[..k] == libs;
    }
  }

  /**
   * A library reached before any exception has its rename recorded as a pair
   * when the name changes, and is copied under the new name when installed.
   */
  lemma ScanLibsRecordsEveryRename(libs: seq<Library>, installList: Option<seq<string>>, i: nat)
    requires i < |libs| && ScanLibs(libs[..i], installList).failure == None
    ensures var a := AdjustSoname(libs[i].soname);
      a.Ok? && a.value != Some(libs[i].soname) ==>
        Replacement(libs[i].soname, a.value) in ScanLibs(libs, installList).added
    ensures var a := AdjustSoname(libs[i].soname);
      a.Ok? && a.value.Some? && Installs(installList, libs[i].path) ==>
        Copy(libs[i].path, a.value.value) in ScanLibs(libs, installList).copies
  {
    ScanLibsSnoc(libs, installList, i);
    ScanLibsPrefix(libs, installList, i + 1);
    var front := ScanLibs(libs[..i], installList);
    var step := ScanOne(libs[i], installList);
    var whole := ScanLibs(libs, installList);
    if step.added != [] {
      assert whole.added[|front.added|] == step.added[0];
    }
    if step.copies != [] {
      assert whole.copies[|front.copies|] == step.copies[0];
    }
  }

  /**
   * What the scan appends and copies: only names the rename changed, each
   * paired with its rename, and every copy under a ".so" name.
   */
  lemma {:induction false} ScanLibsFacts(libs: seq<Library>, installList: Option<seq<string>>)
    ensures var scan := ScanLibs(libs, installList);
      forall i :: 0 <= i < |scan.added| ==>
        scan.added[i].to != Some(scan.added[i].from) && AdjustSoname(scan.added[i].from) == Ok(scan.added[i].to)
    ensures var scan := ScanLibs(libs, installList);
      forall i :: 0 <= i < |scan.copies| ==> EndsWith(scan.copies[i].name, ".so")
    ensures var scan := ScanLibs(libs, installList);
      |scan.copies| <= |libs| && |scan.added| <= |libs|
    decreases |libs|
  {
    if libs != [] {
      ScanLibsFacts(libs[..|libs| - 1], installList);
      var front := ScanLibs(libs[..|libs| - 1], installList);
      var step := ScanOne(libs[|libs| - 1], installList);
      var scan := ScanLibs(libs, installList);
      if front.failure == None {
        forall i | 0 <= i < |scan.added|
          ensures scan.added[i].to != Some(scan.added[i].from) && AdjustSoname(scan.added[i].from) == Ok(scan.added[i].to)
        {
          if i >= |front.added| {
            assert scan.added[i] == step.added[i - |front.added|];
          }
        }
        forall i | 0 <= i < |scan.copies| ensures EndsWith(scan.copies[i].name, ".so") {
          if i >= |front.copies| {
            assert scan.copies[i] == step.copies[i - |front.copies|];
          }
        }
      }
    }
  }

  /**
   * The pairs the scan appends pass the equal-length assertion exactly when
   * every renamed SONAME gave a name and none is of the bare so.X.Y form.
   */
  lemma ScanPairsConsistent(libs: seq<Library>, installList: Option<seq<string>>)
    ensures var added := ScanLibs(libs, installList).added;
      Consistent(added) <==>
        forall i :: 0 <= i < |added| ==> added[i].to.Some? && !BareSoVersion(added[i].from)
  {
    var added := ScanLibs(libs, installList).added;
    ScanLibsFacts(libs, installList);
    forall i | 0 <= i < |added| && added[i].to.Some?
      ensures |added[i].to.value| == |added[i].from| <==> !BareSoVersion(added[i].from)
    {
      AdjustSonameLength(added[i].from);
    }
  }

  /** The second loop of __copy_libs: the first pair that fails `len(pair[0]) == len(pair[1])`. */
  function CheckPairs(reps: seq<Replacement>): (e: Option<Error>)
    ensures e == None <==> Consistent(reps)
    ensures e != None ==> e == Some(TypeError) || e == Some(AssertionError)
  {
    if reps == [] then None
    else if reps[0].to == None then Some(TypeError)  // len(None)
    else if |reps[0].to.value| != |reps[0].from| then Some(AssertionError)
    else
      var e := CheckPairs(reps[1..]);
      assert Consistent(reps[1..]) && reps[0].to.Some? && |reps[0].to.value| == |reps[0].from| ==> Consistent(reps) by {
        if Consistent(reps[1..]) && reps[0].to.Some? && |reps[0].to.value| == |reps[0].from| {
          forall i | 0 <= i < |reps| ensures reps[i].to.Some? && |reps[i].to.value| == |reps[i].from| {
            if i > 0 {
              assert reps[i] == reps[1..][i - 1];
            }
          }
        }
      }
      assert Consistent(reps) ==> Consistent(reps[1..]) by {
        if Consistent(reps) {
          forall i | 0 <= i < |reps| - 1 ensures reps[1..][i].to.Some? && |reps[1..][i].to.value| == |reps[1..][i].from| {
            assert reps[1..][i] == reps[i + 1];
          }
        }
      }
      e
  }

  // ---------------------------------------------------------------------------
  // Patching the binaries (__replace_soname_values)
  // ---------------------------------------------------------------------------

  /** Each pair applied to the contents in list order, every occurrence replaced. */
  function ApplyReplacements(contents: string, reps: seq<Replacement>): (r: Result<string, Error>)
    decreases |reps|
    ensures r.Ok? <==> forall i :: 0 <= i < |reps| ==> reps[i].to.Some?
    ensures r.Err? ==> r.error == TypeError
    ensures Consistent(reps) ==> r.Ok? && |r.value| == |contents|
  {
    if reps == [] then Ok(contents)
    else if reps[0].to == None then Err(TypeError)  // bytes(None, encoding='utf8')
    else
      var next := Replace(contents, reps[0].from, reps[0].to.value);
      var r := ApplyReplacements(next, reps[1..]);
      assert Consistent(reps) ==> Consistent(reps[1..]) && |next| == |contents| by {
        if Consistent(reps) {
          ReplaceKeepsLength(contents, reps[0].from, reps[0].to.value);
          assert forall i :: 0 <= i < |reps| - 1 ==> reps[1..][i] == reps[i + 1];
        }
      }
      assert (forall i :: 0 <= i < |reps| ==> reps[i].to.Some?) <==>
             (forall i :: 0 <= i < |reps| - 1 ==> reps[1..][i].to.Some?) by {
        assert forall i :: 0 <= i < |reps| - 1 ==> reps[1..][i] == reps[i + 1];
        if forall i :: 0 <= i < |reps| - 1 ==> reps[1..][i].to.Some? {
          forall i | 0 <= i < |reps| ensures reps[i].to.Some? {
            if i > 0 {
              assert reps[i] == reps[1..][i - 1];
            }
          }
        }
      }
      r
  }

  /** The pairs are applied in list order: one more pair patches the result of the others. */
  lemma {:induction false} ApplyReplacementsSnoc(contents: string, reps: seq<Replacement>, last: Replacement)
    ensures ApplyReplacements(contents, reps + [last]) ==
      if ApplyReplacements(contents, reps).Err? || last.to == None then Err(TypeError)
      else Ok(Replace(ApplyReplacements(contents, reps).value, last.from, last.to.value))
    decreases |reps|
  {
    if reps == [] {
      assert ([] + [last])[1..] == [];
    } else {
      assert (reps + [last])[0] == reps[0] && (reps + [last])[1..] == reps[1..] + [last];
      if reps[0].to.Some? {
        ApplyReplacementsSnoc(Replace(contents, reps[0].from, reps[0].to.value), reps[1..], last);
      }
    }
  }

  // ---------------------------------------------------------------------------
  // NEEDED / SONAME report (__resolve_deps)
  // ---------------------------------------------------------------------------

  /** What readelf reports for one library: its SONAME and its NEEDED entries. */
  datatype ElfInfo = ElfInfo(soname: string, needed: seq<string>)

  function Elements(s: seq<string>): set<string> {
    set x | x in s
  }

  function Sonames(libs: seq<ElfInfo>): set<string> {
    if libs == [] then {} else Sonames(libs[..|libs| - 1]) + {libs[|libs| - 1].soname}
  }

  function Needed(libs: seq<ElfInfo>): set<string> {
    if libs == [] then {} else Needed(libs[..|libs| - 1]) + Elements(libs[|libs| - 1].needed)
  }

  /** Sonames and Needed collect exactly the entries of the libraries. */
  lemma {:induction false} ElfSetsMembership(libs: seq<ElfInfo>, x: string)
    ensures x in Sonames(libs) <==> exists i :: 0 <= i < |libs| && libs[i].soname == x
    ensures x in Needed(libs) <==> exists i :: 0 <= i < |libs| && x in libs[i].needed
    decreases |libs|
  {
    if libs != [] {
      var front := libs[..|libs| - 1];
      ElfSetsMembership(front, x);
      assert forall i :: 0 <= i < |front| ==> front[i] == libs[i];
      if x in Needed(libs) && x !in Needed(front) {
        assert x in libs[|libs| - 1].needed;
      }
      if x in Sonames(libs) && x !in Sonames(front) {
        assert libs[|libs| - 1].soname == x;
      }
    }
  }

  /**
   * The two reported sets: a name is needed-but-not-provided when the base set
   * or some library needs it and no library provides it, provided-but-not-needed
   * the other way round; no name is in both, and the base set is always needed.
   */
  lemma DepsReport(base: set<string>, libs: seq<ElfInfo>, x: string)
    ensures var needed := base + Needed(libs);
      x in needed - Sonames(libs) <==>
        (x in base || exists i :: 0 <= i < |libs| && x in libs[i].needed)
        && forall i :: 0 <= i < |libs| ==> libs[i].soname != x
    ensures var needed := base + Needed(libs);
      x in Sonames(libs) - needed <==>
        (exists i :: 0 <= i < |libs| && libs[i].soname == x)
        && x !in base && forall i :: 0 <= i < |libs| ==> x !in libs[i].needed
    ensures var needed := base + Needed(libs);
      base <= needed && (needed - Sonames(libs)) !! (Sonames(libs) - needed)
  {
    ElfSetsMembership(libs, x);
  }

  // ---------------------------------------------------------------------------
  // ABI and JNI libraries (install_deps, __copy_jni_libs)
  // ---------------------------------------------------------------------------

  /** The ABI directory name for a target architecture. */
  function AndroidAbi(arch: string): (r: Result<string, Error>)
    ensures r.Ok? <==> arch == "arm64" || arch == "arm"
    ensures r.Err? ==> r.error == ArchitectureNotSupported
  {
    if arch == "arm64" then Ok("arm64-v8a")
    else if arch == "arm" then Ok("armeabi-v7a")
    else Err(ArchitectureNotSupported)
  }

  /** arm64 goes to arm64-v8a and arm to armeabi-v7a, and no two architectures share a directory. */
  lemma AndroidAbiValues(a: string, b: string)
    ensures AndroidAbi("arm64") == Ok("arm64-v8a") && AndroidAbi("arm") == Ok("armeabi-v7a")
    ensures AndroidAbi(a).Ok? && AndroidAbi(a) == AndroidAbi(b) ==> a == b
  {
    assert "arm64-v8a" != "armeabi-v7a" by {
      assert "arm64-v8a"[3] != "armeabi-v7a"[3];
    }
  }

  /** The libraries the glue links against at build time; they stay out of the JNI directory. */
  const BUILD_LIBS: seq<string> := [
    "glib-2.0",
    "libgio-2.0.so",
    "libglib-2.0.so",
    "libgobject-2.0.so",
    "libwpe-1.0.so",
    "libWPEWebKit-1.0.so",
    "libWPEWebKit-1.0_3.so",
    "libWPEWebKit-1.0_3.11.7.so"
  ]

  /** The base names copied to the JNI directory, in order. */
  function JniLibNames(paths: seq<string>, buildLibs: seq<string>): seq<string> {
    if paths == [] then []
    else
      var front := JniLibNames(paths[..|paths| - 1], buildLibs);
      var name := Basename(paths[|paths| - 1]);
      if name in buildLibs then front else front + [name]
  }

  /** A name is copied exactly when some path has it as base name and it is not a build library. */
  lemma {:induction false} JniLibNamesMembership(paths: seq<string>, buildLibs: seq<string>, x: string)
    ensures x in JniLibNames(paths, buildLibs) <==>
      x !in buildLibs && exists i :: 0 <= i < |paths| && Basename(paths[i]) == x
    ensures |JniLibNames(paths, buildLibs)| <= |paths|
    decreases |paths|
  {
    if paths != [] {
      var front := paths[..|paths| - 1];
      JniLibNamesMembership(front, buildLibs, x);
      if i :| 0 <= i < |front| && Basename(front[i]) == x {
        assert paths[i] == front[i];
      }
      if i :| 0 <= i < |paths| - 1 && Basename(paths[i]) == x {
        assert front[i] == paths[i];
      }
    }
  }

  // ---------------------------------------------------------------------------
  // The script's state
  // ---------------------------------------------------------------------------

  /** The Bootstrap object: the fields the modelled methods read and update. */
  class Bootstrap {
    const arch: string
    const buildLibs: seq<string>
    var sonameReplacements: seq<Replacement>
    var baseNeeded: set<string>

    constructor (arch: string)
      ensures this.arch == arch && buildLibs == BUILD_LIBS
      ensures sonameReplacements == [NETTLE_SEED] && Consistent(sonameReplacements)
      ensures baseNeeded == {"libWPEWebKit-1.0_3.so"}
    {
      this.arch := arch;
      buildLibs := BUILD_LIBS;
      sonameReplacements := [NETTLE_SEED];
      baseNeeded := {"libWPEWebKit-1.0_3.so"};
    }

    /**
     * __copy_libs without the file system: appends a pair for every SONAME the
     * rename changes, lists the copies, then asserts every pair has equal sides.
     */
    method CopyLibs(libs: seq<Library>, installList: Option<seq<string>>) returns (r: Result<seq<Copy>, Error>)
      modifies this`sonameReplacements
      ensures sonameReplacements == old(sonameReplacements) + ScanLibs(libs, installList).added
      ensures ScanLibs(libs, installList).failure.Some? ==> r == Err(ScanLibs(libs, installList).failure.value)
      ensures ScanLibs(libs, installList).failure == None ==>
        r == if Consistent(sonameReplacements) then Ok(ScanLibs(libs, installList).copies)
             else Err(CheckPairs(sonameReplacements).value)
    {
      var scan := ScanLibraries(libs, installList);
      // every pair the loop appended before it finished or raised
      sonameReplacements := sonameReplacements + scan.added;
      if scan.failure.Some? {
        return Err(scan.failure.value);
      }
      var failure := CheckReplacements();
      if failure.Some? {
        return Err(failure.value);
      }
      r := Ok(scan.copies);
    }

    /**
     * install_deps without the headers: the ABI directory is chosen before
     * anything is copied, so an unsupported architecture leaves the pair list
     * as it was. install_deps joins each entry of the install list to the
     * sysroot's lib directory before handing it to __copy_libs; here both
     * `Library.path` and `installList` are taken relative to that directory.
     * The calls to __resolve_deps and __copy_jni_libs that follow are not
     * chained here (see ResolveDeps and CopyJniLibs).
     */
    method InstallDeps(libs: seq<Library>, installList: Option<seq<string>>)
      returns (r: Result<(string, seq<Copy>), Error>)
      modifies this`sonameReplacements
      ensures AndroidAbi(arch).Err? ==>
        r == Err(ArchitectureNotSupported) && sonameReplacements == old(sonameReplacements)
      ensures AndroidAbi(arch).Ok? ==>
        sonameReplacements == old(sonameReplacements) + ScanLibs(libs, installList).added
      ensures AndroidAbi(arch).Ok? ==>
        r == if ScanLibs(libs, installList).failure.Some? then Err(ScanLibs(libs, installList).failure.value)
             else if Consistent(sonameReplacements) then Ok((AndroidAbi(arch).value, ScanLibs(libs, installList).copies))
             else Err(CheckPairs(sonameReplacements).value)
    {
      var abi := AndroidAbi(arch);
      if abi.Err? {
        return Err(abi.error);
      }
      var copied := CopyLibs(libs, installList);
      if copied.Err? {
        return Err(copied.error);
      }
      r := Ok((abi.value, copied.value));
    }

    /** The first loop of __copy_libs: rename each SONAME, record changed names, list the copies. */
    method ScanLibraries(libs: seq<Library>, installList: Option<seq<string>>) returns (scan: Scan)
      ensures scan == ScanLibs(libs, installList)
    {
      var stopped: nat;
      scan, stopped := ScanUntilFailure(libs, installList);
      if stopped < |libs| {
        ScanLibsStops(libs, installList, stopped);
      } else {
        assert libs[..stopped] == libs;
      }
    }

    /** The loop itself: it stops after the last library or at the first exception. */
    method ScanUntilFailure(libs: seq<Library>, installList: Option<seq<string>>) returns (scan: Scan, stopped: nat)
      ensures stopped <= |libs| && scan == ScanLibs(libs[..stopped], installList)
      ensures stopped == |libs| || scan.failure.Some?
    {
      scan := Scan([], [], None);
      stopped := 0;
      while stopped < |libs| && scan.failure == None
        invariant stopped <= |libs|
        invariant scan == ScanLibs(libs[..stopped], installList)
      {
        var step := ScanOne(libs[stopped], installList);
        ScanLibsSnoc(libs, installList, stopped);
        scan := Scan(scan.added + step.added, scan.copies + step.copies, step.failure);
        stopped := stopped + 1;
      }
    }

    /** The second loop of __copy_libs: every pair must have equal sides. */
    method CheckReplacements() returns (e: Option<Error>)
      ensures e == CheckPairs(sonameReplacements)
      ensures e == None <==> Consistent(sonameReplacements)
    {
      var j := 0;
      while j < |sonameReplacements|
        invariant 0 <= j <= |sonameReplacements|
        invariant CheckPairs(sonameReplacements) == CheckPairs(sonameReplacements[j..])
      {
        var pair := sonameReplacements[j];
        assert sonameReplacements[j..][0] == pair && sonameReplacements[j..][1..] == sonameReplacements[j + 1..];
        if pair.to == None {
          return Some(TypeError);
        }
        if |pair.from| != |pair.to.value| {
          return Some(AssertionError);
        }
        j := j + 1;
      }
      e := None;
    }

    /** __replace_soname_values on a library's contents. */
    method ReplaceSonameValues(contents: string) returns (r: Result<string, Error>)
      ensures r == ApplyReplacements(contents, sonameReplacements)
    {
      var current := contents;
      var i := 0;
      while i < |sonameReplacements|
        invariant 0 <= i <= |sonameReplacements|
        invariant ApplyReplacements(current, sonameReplacements[i..]) == ApplyReplacements(contents, sonameReplacements)
      {
        var pair := sonameReplacements[i];
        assert sonameReplacements[i..][0] == pair && sonameReplacements[i..][1..] == sonameReplacements[i + 1..];
        if pair.to == None {
          return Err(TypeError);
        }
        current := Replace(current, pair.from, pair.to.value);
        i := i + 1;
      }
      r := Ok(current);
    }

    /**
     * __resolve_deps. needed_set is the same set object as base_needed, so the
     * NEEDED entries of every library stay in baseNeeded afterwards.
     */
    method ResolveDeps(libs: seq<ElfInfo>) returns (neededNotProvided: set<string>, providedNotNeeded: set<string>)
      modifies this`baseNeeded
      ensures baseNeeded == old(baseNeeded) + Needed(libs)
      ensures neededNotProvided == baseNeeded - Sonames(libs)
      ensures providedNotNeeded == Sonames(libs) - baseNeeded
      ensures old(baseNeeded) <= baseNeeded && neededNotProvided !! providedNotNeeded
    {
      var sonameSet: set<string> := {};
      var i := 0;
      while i < |libs|
        invariant 0 <= i <= |libs|
        invariant sonameSet == Sonames(libs[..i])
        invariant baseNeeded == old(baseNeeded) + Needed(libs[..i])
      {
        assert libs[..i + 1][..i] == libs[..i];
        sonameSet := sonameSet + {libs[i].soname};
        baseNeeded := baseNeeded + Elements(libs[i].needed);
        i := i + 1;
      }
      assert libs[..i] == libs;
      neededNotProvided := baseNeeded - sonameSet;
      providedNotNeeded := sonameSet - baseNeeded;
    }

    /** __copy_jni_libs without the file system: the base names copied, skipping build libraries. */
    method CopyJniLibs(paths: seq<string>) returns (copied: seq<string>)
      ensures copied == JniLibNames(paths, buildLibs)
      ensures forall k :: 0 <= k < |copied| ==> copied[k] !in buildLibs
    {
      copied := [];
      var i := 0;
      while i < |paths|
        invariant 0 <= i <= |paths|
        invariant copied == JniLibNames(paths[..i], buildLibs)
        invariant forall k :: 0 <= k < |copied| ==> copied[k] !in buildLibs
      {
        assert paths[..i + 1][..i] == paths[..i];
        var name := Basename(paths[i]);
        if name !in buildLibs {
          copied := copied + [name];
        }
        i := i + 1;
      }
      assert paths[..i] == paths;
    }
  }
}
