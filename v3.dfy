/** The string and path logic of the v3 view: which file type a location
    asks for, and where in the cache its rendered file lives. The filesystem,
    the upstream renderers and the HTML page are not modelled; the clock is
    a parameter. */
module V3 {
  import Numeric
  import opened Text

  const CacheDir: string := "/wttr.in/cache/v3"

  /** The file types the v3 view serves. */
  const FileTypes: set<string> := {"sxl", "png", "it2"}

  /** A non-empty path segment without a separator. */
  predicate Segment(s: string) {
    |s| > 0 && forall i :: 0 <= i < |s| ==> s[i] != '/'
  }

  lemma FileTypesAreSegments(filetype: string)
    requires filetype in FileTypes
    ensures Segment(filetype)
  {
  }

  /** The name a cache file is stored under: a name ending in "." + the
      file type is cut down to its first `|filetype| + 1` characters (a
      prefix of that length is kept, the suffix is not what is removed);
      any other name is kept whole. */
  function CacheName(filetype: string, name: string): (r: string)
    ensures StartsWith(name, r)
    ensures EndsWith(name, "." + filetype) ==> |r| == |filetype| + 1
    ensures !EndsWith(name, "." + filetype) ==> r == name
  {
    if EndsWith(name, "." + filetype) then name[..|filetype| + 1] else name
  }

  /** The hour bucket `str(int(now / 3600))`. */
  function HourStamp(now: real): (stamp: string)
    ensures Segment(stamp)
  {
    var stamp := DecimalText(Numeric.Trunc(now / 3600.0));
    assert !Absolute(stamp);
    stamp
  }

  /** The directory of one file type. */
  function TypeDir(filetype: string): string {
    CacheDir + "/" + filetype
  }

  /** The file name proper: the stored name and the file type's extension. */
  function FileName(filetype: string, name: string): string {
    CacheName(filetype, name) + "." + filetype
  }

  /** `_get_cache_filename`: `os.path.join` of the cache directory, the file
      type, the hour bucket when `timestamp` is set, and the file name. An
      absolute name replaces everything before it, as `os.path.join` does. */
  function CacheFilename(filetype: string, name: string, timestamp: bool, now: real): (path: string)
    ensures filetype in FileTypes && !Absolute(CacheName(filetype, name)) ==>
      path == (if timestamp then TypeDir(filetype) + "/" + HourStamp(now) else TypeDir(filetype))
              + "/" + FileName(filetype, name)
    ensures |filetype| > 0 && Absolute(CacheName(filetype, name)) ==> path == FileName(filetype, name)
  {
    var file := FileName(filetype, name);
    FileNameAbsolute(filetype, name);
    StampedDirShape(filetype, now);
    var dir := JoinPath(CacheDir, filetype);
    if timestamp then JoinPath(JoinPath(dir, HourStamp(now)), file) else JoinPath(dir, file)
  }

  lemma TypeDirShape(filetype: string)
    requires filetype in FileTypes
    ensures JoinPath(CacheDir, filetype) == TypeDir(filetype)
    ensures !EndsWithSlash(TypeDir(filetype))
  {
    FileTypesAreSegments(filetype);
    var d := TypeDir(filetype);
    assert d[|d| - 1] == filetype[|filetype| - 1];
  }

  lemma StampedDirShape(filetype: string, now: real)
    ensures filetype in FileTypes ==> JoinPath(CacheDir, filetype) == TypeDir(filetype)
    ensures filetype in FileTypes ==> !EndsWithSlash(TypeDir(filetype))
    ensures filetype in FileTypes ==> !EndsWithSlash(TypeDir(filetype) + "/" + HourStamp(now))
  {
    if filetype in FileTypes {
      TypeDirShape(filetype);
      var stamp := HourStamp(now);
      var timed := TypeDir(filetype) + "/" + stamp;
      assert timed[|timed| - 1] == stamp[|stamp| - 1];
    }
  }

  /** The file part is absolute exactly when the stored name is. */
  lemma FileNameAbsolute(filetype: string, name: string)
    ensures Absolute(FileName(filetype, name)) <==> Absolute(CacheName(filetype, name))
  {
    var stored := CacheName(filetype, name);
    if stored == [] {
      assert FileName(filetype, name)[0] == '.';
    } else {
      assert FileName(filetype, name)[0] == stored[0];
    }
  }

  /** Two paths that differ only in their hour bucket have the same bucket. */
  lemma StampCancel(dir: string, s1: string, s2: string, file: string)
    requires dir + "/" + s1 + "/" + file == dir + "/" + s2 + "/" + file
    ensures s1 == s2
  {
    var a := dir + "/" + s1 + "/" + file;
    var b := dir + "/" + s2 + "/" + file;
    assert |s1| == |s2|;
    assert a[|dir| + 1..|dir| + 1 + |s1|] == s1;
    assert b[|dir| + 1..|dir| + 1 + |s2|] == s2;
  }

  /** Two times share a cache file exactly when they fall in the same hour
      bucket (for a file that stays inside the cache directory). */
  lemma SameHourSameFile(filetype: string, name: string, t1: real, t2: real)
    requires filetype in FileTypes && !Absolute(CacheName(filetype, name))
    ensures CacheFilename(filetype, name, true, t1) == CacheFilename(filetype, name, true, t2)
            <==> Numeric.Trunc(t1 / 3600.0) == Numeric.Trunc(t2 / 3600.0)
  {
    if CacheFilename(filetype, name, true, t1) == CacheFilename(filetype, name, true, t2) {
      StampCancel(TypeDir(filetype), HourStamp(t1), HourStamp(t2), FileName(filetype, name));
      DecimalTextInjective(Numeric.Trunc(t1 / 3600.0), Numeric.Trunc(t2 / 3600.0));
    }
  }

  /** At most one of the served suffixes ends a location. */
  lemma SuffixesExclusive(location: string)
    ensures !(EndsWith(location, ".sxl") && EndsWith(location, ".png"))
    ensures !(EndsWith(location, ".sxl") && EndsWith(location, ".it2"))
    ensures !(EndsWith(location, ".png") && EndsWith(location, ".it2"))
  {
    if |location| >= 4 {
      var t := location[|location| - 4..];
      if EndsWith(location, ".sxl") { assert t[1] == 's'; }
      if EndsWith(location, ".png") { assert t[1] == 'p'; }
      if EndsWith(location, ".it2") { assert t[1] == 'i'; }
    }
  }

  /** A location ending in one of the served suffixes. */
  predicate HasFileSuffix(location: string) {
    EndsWith(location, ".sxl") || EndsWith(location, ".png") || EndsWith(location, ".it2")
  }

  /** What a v3 location asks for: a file type and the location without its
      suffix, or an unknown type. */
  datatype Request = Asset(filetype: string, name: string) | UnknownType

  /** The suffix classification of `v3_file`: ".sxl", ".png" and ".it2" name
      their type and are dropped; a location with no dot at all is a PNG; any
      other dotted location is of an unknown type. */
  function ClassifyV3(location: string): (r: Request)
    ensures EndsWith(location, ".sxl") ==> r == Asset("sxl", location[..|location| - 4])
    ensures EndsWith(location, ".png") ==> r == Asset("png", location[..|location| - 4])
    ensures EndsWith(location, ".it2") ==> r == Asset("it2", location[..|location| - 4])
    ensures !HasFileSuffix(location) && '.' in location ==> r == UnknownType
    ensures !HasFileSuffix(location) && '.' !in location ==> r == Asset("png", location)
    ensures r.Asset? ==> r.filetype in FileTypes
    ensures r.Asset? ==> location == r.name + "." + r.filetype || location == r.name
  {
    SuffixesExclusive(location);
    if EndsWith(location, ".sxl") then
      SplitSuffix(location, ".sxl");
      assert "." + "sxl" == ".sxl";
      Asset("sxl", location[..|location| - 4])
    else if EndsWith(location, ".png") then
      SplitSuffix(location, ".png");
      assert "." + "png" == ".png";
      Asset("png", location[..|location| - 4])
    else if EndsWith(location, ".it2") then
      SplitSuffix(location, ".it2");
      assert "." + "it2" == ".it2";
      Asset("it2", location[..|location| - 4])
    else if '.' in location then UnknownType
    else Asset("png", location)
  }

  /** What `v3_file` returns: the cache path of the requested file, or the
      error text for an unknown type (before any cache lookup). */
  datatype V3Reply = CachePath(path: string) | ErrorText(text: string)

  function V3File(location: string, now: real): (r: V3Reply)
    ensures r.ErrorText? <==> ClassifyV3(location).UnknownType?
    ensures r.ErrorText? ==> r.text == "ERROR Unknown filetype: " + location
    ensures r.CachePath? ==>
      r.path == CacheFilename(ClassifyV3(location).filetype, ClassifyV3(location).name, true, now)
  {
    match ClassifyV3(location)
    case UnknownType => ErrorText("ERROR Unknown filetype: " + location)
    case Asset(filetype, name) => CachePath(CacheFilename(filetype, name, true, now))
  }

  /** Where `_main_view` takes its text from: a cached rendering, or the
      static v3 page. */
  datatype MainSource = CachedView(path: string) | StaticPage

  /** `_main_view`'s suffix test: only ".sxl" and ".it2" select a cached
      rendering, with the suffix dropped; everything else, ".png" included,
      gets the static page. */
  function MainView(location: string, now: real): (r: MainSource)
    ensures r.CachedView? <==> EndsWith(location, ".sxl") || EndsWith(location, ".it2")
    ensures r.CachedView? ==> V3File(location, now) == CachePath(r.path)
  {
    if EndsWith(location, ".sxl") then CachedView(CacheFilename("sxl", location[..|location| - 4], true, now))
    else if EndsWith(location, ".it2") then CachedView(CacheFilename("it2", location[..|location| - 4], true, now))
    else StaticPage
  }

  /** The prefix truncation makes two different locations share one cache
      file: "London.png.png" is stored as "Lond.png", where "Lond.png" is. */
  lemma DoubleSuffixSharesFile(now: real)
    ensures V3File("London.png.png", now) == V3File("Lond.png", now)
  {
    var a, b := "London.png.png", "Lond.png";
    assert a[|a| - 4..] == ".png";
    assert a[..|a| - 4] == "London.png";
    assert b[|b| - 4..] == ".png";
    assert b[..|b| - 4] == "Lond";
    assert "." + "png" == ".png";
    assert "London.png"[6..] == ".png";
    assert "London.png"[..4] == "Lond";
    assert "Lond" != ".png";
    assert CacheName("png", "London.png") == CacheName("png", "Lond");
    assert !Absolute("Lond");
  }
}
