/**
 * Selection of the advert video: among the names of the assets folder, in
 * sorted order, the first one that looks like an MP4 or QuickTime file and
 * is not hidden.
 */
module Video {
  import opened Wrappers
  import opened Texte

  /**
   * `a` and `b` agree on their first `k` characters, after which `a` ends
   * while `b` goes on, or `a` has the smaller character.
   */
  ghost predicate LexLessAt(a: string, b: string, k: int) {
    && 0 <= k <= |a| && k < |b| && a[..k] == b[..k]
    && (k == |a| || a[k] < b[k])
  }

  /** Python's `a < b` on strings: lexicographic order on code points, a proper prefix first. */
  predicate LexLess(a: string, b: string)
    ensures LexLess(a, b) <==> exists k :: LexLessAt(a, b, k)
    decreases |a|
  {
    if a == [] then
      assert b != [] ==> LexLessAt(a, b, 0);
      b != []
    else if b == [] then
      false
    else if a[0] != b[0] then
      assert a[0] < b[0] ==> LexLessAt(a, b, 0);
      assert forall k :: LexLessAt(a, b, k) ==> k == 0;
      a[0] < b[0]
    else
      var r := LexLess(a[1..], b[1..]);
      assert forall k :: LexLessAt(a[1..], b[1..], k) ==> LexLessAt(a, b, k + 1) by {
        forall k | LexLessAt(a[1..], b[1..], k) ensures LexLessAt(a, b, k + 1) {
          assert a[..k + 1] == [a[0]] + a[1..][..k];
          assert b[..k + 1] == [b[0]] + b[1..][..k];
        }
      }
      assert forall k :: LexLessAt(a, b, k) ==> k > 0 && LexLessAt(a[1..], b[1..], k - 1) by {
        forall k | LexLessAt(a, b, k) ensures k > 0 && LexLessAt(a[1..], b[1..], k - 1) {
          if k == 0 {
          } else {
            assert a[1..][..k - 1] == a[..k][1..];
            assert b[1..][..k - 1] == b[..k][1..];
          }
        }
      }
      r
  }

  lemma {:induction false} LexLessIrreflexive(a: string)
    ensures !LexLess(a, a)
    decreases |a|
  {
    if a != [] {
      LexLessIrreflexive(a[1..]);
    }
  }

  lemma {:induction false} LexLessTransitive(a: string, b: string, c: string)
    requires LexLess(a, b) && LexLess(b, c)
    ensures LexLess(a, c)
    decreases |a|
  {
    if a != [] && a[0] == b[0] && b[0] == c[0] {
      LexLessTransitive(a[1..], b[1..], c[1..]);
    }
  }

  lemma {:induction false} LexLessTotal(a: string, b: string)
    requires a != b
    ensures LexLess(a, b) || LexLess(b, a)
    decreases |a|
  {
    if a != [] && b != [] && a[0] == b[0] {
      assert a == [a[0]] + a[1..] && b == [b[0]] + b[1..];
      LexLessTotal(a[1..], b[1..]);
    }
  }

  lemma LexLessAsymmetric(a: string, b: string)
    requires LexLess(a, b)
    ensures !LexLess(b, a)
  {
    if LexLess(b, a) {
      LexLessTransitive(a, b, a);
      LexLessIrreflexive(a);
    }
  }

  /** "Not after" is transitive, which is what sortedness chains through. */
  lemma NotLessTransitive(a: string, b: string, c: string)
    requires !LexLess(b, a) && !LexLess(c, b)
    ensures !LexLess(c, a)
  {
    if LexLess(c, a) {
      if a == b {
        assert false;
      } else {
        LexLessTotal(a, b);
        LexLessTransitive(c, a, b);
        assert false;
      }
    }
  }

  /** Every name is no later than every name after it. */
  ghost predicate SortedLex(s: seq<string>) {
    forall i, j :: 0 <= i < j < |s| ==> !LexLess(s[j], s[i])
  }

  /** Places `x` before the first name of a sorted list that does not come before it. */
  function Insert(x: string, s: seq<string>): (r: seq<string>)
    requires SortedLex(s)
    ensures SortedLex(r)
    ensures multiset(r) == multiset(s) + multiset{x}
  {
    if s == [] then
      [x]
    else if LexLess(s[0], x) then
      var rest := Insert(x, s[1..]);
      assert s == [s[0]] + s[1..];
      forall j | 0 <= j < |rest| ensures !LexLess(rest[j], s[0]) {
        assert rest[j] in multiset(rest);
        if rest[j] == x {
          LexLessAsymmetric(s[0], x);
        } else {
          assert rest[j] in s[1..];
        }
      }
      [s[0]] + rest
    else
      forall j | 0 <= j < |s| ensures !LexLess(s[j], x) {
        if j > 0 {
          if s[0] == x {
          } else {
            LexLessTotal(s[0], x);
            NotLessTransitive(x, s[0], s[j]);
          }
        }
      }
      [x] + s
  }

  /** `sorted(names)`: the names in ascending order, each kept as often as it occurs. */
  function SortNames(names: seq<string>): (r: seq<string>)
    ensures SortedLex(r)
    ensures multiset(r) == multiset(names)
  {
    if names == [] then
      []
    else
      assert names == [names[0]] + names[1..];
      Insert(names[0], SortNames(names[1..]))
  }

  /** A playable, non-hidden video name: ends in ".mp4" or ".mov" in any letter case, no leading dot. */
  predicate IsVideoName(name: string)
    ensures IsVideoName(name) ==> |name| >= 4 && name[0] != '.'
  {
    var lower := Lower(name);
    (EndsWith(lower, ".mp4") || EndsWith(lower, ".mov")) && !StartsWith(name, ".")
  }

  /** Character by character: a name of at least four characters, no leading dot, ending in ".mp4" or ".mov" up to letter case. */
  lemma IsVideoNameChars(name: string)
    ensures IsVideoName(name) <==>
      && |name| >= 4 && name[0] != '.' && name[|name| - 4] == '.'
      && LowerChar(name[|name| - 3]) == 'm'
      && ((LowerChar(name[|name| - 2]) == 'p' && name[|name| - 1] == '4')
          || (LowerChar(name[|name| - 2]) == 'o' && LowerChar(name[|name| - 1]) == 'v'))
  {
  }

  /** The scan of `find_video`: stops at the first video name of the list. */
  function FirstVideo(names: seq<string>): (r: Option<string>)
    ensures r.None? <==> forall k :: 0 <= k < |names| ==> !IsVideoName(names[k])
    ensures r.Some? ==> r.value in names && IsVideoName(r.value)
  {
    if names == [] then
      None
    else if IsVideoName(names[0]) then
      Some(names[0])
    else
      assert forall k :: 1 <= k < |names| ==> names[k] == names[1..][k - 1];
      FirstVideo(names[1..])
  }

  /** The name the scan returns sits at an index before which no name is a video name. */
  lemma {:induction false} FirstVideoIndex(names: seq<string>) returns (k: nat)
    requires FirstVideo(names).Some?
    ensures k < |names| && names[k] == FirstVideo(names).value
    ensures forall j :: 0 <= j < k ==> !IsVideoName(names[j])
  {
    if IsVideoName(names[0]) {
      k := 0;
    } else {
      var k' := FirstVideoIndex(names[1..]);
      k := k' + 1;
      assert forall j :: 1 <= j < k ==> names[j] == names[1..][j - 1];
    }
  }

  /** Scanning the sorted listing finds the least video name of the listing. */
  lemma SortedScanIsLeast(names: seq<string>)
    ensures var r := FirstVideo(SortNames(names));
      && (r.None? <==> forall n :: n in names ==> !IsVideoName(n))
      && (r.Some? ==> r.value in names && IsVideoName(r.value))
      && (r.Some? ==> forall n :: n in names && IsVideoName(n) ==> !LexLess(n, r.value))
  {
    var sorted := SortNames(names);
    forall n ensures n in names <==> n in sorted {
      assert n in names <==> n in multiset(names);
      assert n in sorted <==> n in multiset(sorted);
    }
    var r := FirstVideo(sorted);
    if r.Some? {
      var k := FirstVideoIndex(sorted);
      forall n | n in names && IsVideoName(n) ensures !LexLess(n, r.value) {
        var m :| 0 <= m < |sorted| && sorted[m] == n;
        if m == k {
          LexLessIrreflexive(n);
        }
      }
    }
  }

  /**
   * The name `find_video` settles on for a folder listing: the least video
   * name in string order, or none when no name qualifies.
   */
  function PickVideo(names: seq<string>): (r: Option<string>)
    ensures r.None? <==> forall n :: n in names ==> !IsVideoName(n)
    ensures r.Some? ==> r.value in names && IsVideoName(r.value)
    ensures r.Some? ==> forall n :: n in names && IsVideoName(n) ==> !LexLess(n, r.value)
  {
    SortedScanIsLeast(names);
    FirstVideo(SortNames(names))
  }

  /** Any name that is a least video name of the listing is the one picked: the pick does not depend on the sorting method. */
  lemma PickVideoUnique(names: seq<string>, v: string)
    requires v in names && IsVideoName(v)
    requires forall n :: n in names && IsVideoName(n) ==> !LexLess(n, v)
    ensures PickVideo(names) == Some(v)
  {
    var r := PickVideo(names);
    assert r.Some?;
    if r.value != v {
      LexLessTotal(r.value, v);
      assert false;
    }
  }

  /**
   * `os.path.join(folder, name)` on POSIX: an absolute name replaces the
   * folder; otherwise the folder, one "/" unless the folder is empty or
   * already ends with one, then the name.
   */
  function Join(folder: string, name: string): (path: string)
    ensures StartsWith(name, "/") ==> path == name
    ensures !StartsWith(name, "/") ==> StartsWith(path, folder) && EndsWith(path, name)
    ensures !StartsWith(name, "/") ==>
      |path| == |folder| + |name| + (if folder == [] || EndsWith(folder, "/") then 0 else 1)
    ensures !StartsWith(name, "/") && folder != [] ==> path[|path| - |name| - 1] == '/'
  {
    if StartsWith(name, "/") then name
    else if folder == [] || EndsWith(folder, "/") then folder + name
    else folder + "/" + name
  }

  /**
   * `find_video(folder)`: `listing` is the folder's listing, or `None` when
   * the folder is not a directory. The result is the path of the picked name.
   */
  function FindVideo(folder: string, listing: Option<seq<string>>): (r: Option<string>)
    ensures r.Some? <==> listing.Some? && exists n :: n in listing.value && IsVideoName(n)
    ensures r.Some? ==> PickVideo(listing.value).Some? && r.value == Join(folder, PickVideo(listing.value).value)
  {
    match listing
    case None => None
    case Some(names) =>
      match PickVideo(names)
      case None => None
      case Some(name) => Some(Join(folder, name))
  }

  /**
   * In the default "assets" folder the path is "assets/" followed by the
   * name, since a directory listing never holds a name with a "/".
   */
  lemma DefaultFolderPath(listing: seq<string>)
    requires forall n :: n in listing ==> '/' !in n
    requires FindVideo("assets", Some(listing)).Some?
    ensures var name := PickVideo(listing).value;
      name in listing && IsVideoName(name) && FindVideo("assets", Some(listing)).value == "assets/" + name
  {
    var name := PickVideo(listing).value;
    assert name in listing && |name| >= 4;
    assert name[0] in name;
    assert !StartsWith(name, "/");
    assert !EndsWith("assets", "/");
    assert Join("assets", name) == "assets" + "/" + name;
  }

  /** Which names of the example listing qualify. */
  lemma ExampleNames()
    ensures IsVideoName("Pub.MP4") && IsVideoName("intro.mov")
    ensures !IsVideoName(".hidden.mp4") && !IsVideoName("notes.txt")
  {
    IsVideoNameChars("Pub.MP4");
    IsVideoNameChars("intro.mov");
    IsVideoNameChars(".hidden.mp4");
    IsVideoNameChars("notes.txt");
  }

  /** Upper-case extensions qualify, hidden files do not, and the least qualifying name wins. */
  lemma PickVideoExample()
    ensures PickVideo([".hidden.mp4", "intro.mov", "Pub.MP4", "notes.txt"]) == Some("Pub.MP4")
  {
    var names := [".hidden.mp4", "intro.mov", "Pub.MP4", "notes.txt"];
    ExampleNames();
    LexLessIrreflexive("Pub.MP4");
    assert !LexLess("intro.mov", "Pub.MP4") by {
      assert "intro.mov"[0] == 'i' && "Pub.MP4"[0] == 'P';
    }
    assert forall n :: n in names ==> n == ".hidden.mp4" || n == "intro.mov" || n == "Pub.MP4" || n == "notes.txt";
    PickVideoUnique(names, "Pub.MP4");
  }
}
