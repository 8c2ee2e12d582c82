/** Build paths and the string operations the builder applies to them
    (Path.String/Rel/Base/Ext, pathtools.ReplaceExtension, strings.TrimPrefix). */
module Paths {

  /** A path below a root directory: `rel` is the part relative to `root`. */
  datatype Path = Path(root: string, rel: string)
  {
    function String(): string
    {
      if root == "" then rel else root + "/" + rel
    }

    function Rel(): string
    {
      rel
    }

    /** The last element of the path. */
    function Base(): string
    {
      var s := String();
      s[LastIndex(s, '/') + 1..]
    }

    /** The extension of the last element, dot included; empty when it has no dot. */
    function Ext(): string
    {
      Extension(Base())
    }
  }

  /** Index of the last occurrence of `c` in `s`, or -1 when there is none. */
  function LastIndex(s: string, c: char): (r: int)
    ensures -1 <= r < |s|
    ensures r >= 0 ==> s[r] == c
  {
    if s == [] then -1
    else if s[|s| - 1] == c then |s| - 1
    else LastIndex(s[..|s| - 1], c)
  }

  /** No occurrence of `c` follows the one LastIndex finds; -1 means `c` does not occur. */
  lemma {:induction false} LastIndexIsLast(s: string, c: char)
    ensures forall k :: LastIndex(s, c) < k < |s| ==> s[k] != c
    ensures LastIndex(s, c) < 0 <==> c !in s
  {
    if s != [] && s[|s| - 1] != c {
      var init := s[..|s| - 1];
      LastIndexIsLast(init, c);
      assert s == init + [s[|s| - 1]];
      assert forall k :: 0 <= k < |init| ==> s[k] == init[k];
    }
  }

  /** Suffix of `name` from its last dot, or "" when it has none. */
  function Extension(name: string): string
  {
    var i := LastIndex(name, '.');
    if i < 0 then "" else name[i..]
  }

  /** `name` without its extension. */
  function Stem(name: string): string
  {
    var i := LastIndex(name, '.');
    if i < 0 then name else name[..i]
  }

  /** Replaces the extension of `name` by `.ext`; a name without one gets `.ext` appended. */
  function ReplaceExtension(name: string, ext: string): string
  {
    Stem(name) + "." + ext
  }

  function TrimPrefix(s: string, prefix: string): string
  {
    if prefix <= s then s[|prefix|..] else s
  }

  /** The last element of a path holds no separator. */
  lemma BaseHasNoSeparator(p: Path)
    ensures '/' !in p.Base()
  {
    var s := p.String();
    var i := LastIndex(s, '/');
    LastIndexIsLast(s, '/');
    var b := s[i + 1..];
    forall k | 0 <= k < |b|
      ensures b[k] != '/'
    {
      assert b[k] == s[i + 1 + k];
    }
  }

  /** A path whose relative part has no separator has that part as its last element. */
  lemma BaseOfFlatRel(p: Path)
    requires '/' !in p.rel
    ensures p.Base() == p.rel
  {
    var s := p.String();
    LastIndexIsLast(s, '/');
    var i := LastIndex(s, '/');
    if p.root == "" {
      assert s == p.rel;
    } else {
      assert s[|p.root|] == '/';
      assert forall k :: |p.root| < k < |s| ==> s[k] == p.rel[k - |p.root| - 1];
      assert i == |p.root|;
      assert s[i + 1..] == p.rel;
    }
  }

  /** A name splits into its stem and its extension; the extension is empty exactly when there is no dot,
      and otherwise is a dot followed by no further dot. */
  lemma SplitExtension(name: string)
    ensures name == Stem(name) + Extension(name)
    ensures Extension(name) == "" <==> '.' !in name
    ensures Extension(name) != "" ==> Extension(name)[0] == '.' && '.' !in Extension(name)[1..]
  {
    var i := LastIndex(name, '.');
    LastIndexIsLast(name, '.');
    if i >= 0 {
      assert name == name[..i] + name[i..];
      assert Extension(name)[1..] == name[i + 1..];
    } else {
      assert forall k :: 0 <= k < |name| ==> name[k] != '.';
    }
  }

  /** ReplaceExtension appends `.ext` to a name without an extension; otherwise it keeps the
      stem, and when `ext` holds no dot the result's stem and extension are the old stem and `.ext`. */
  lemma {:induction false} ReplaceExtensionStem(name: string, ext: string)
    ensures Extension(name) == "" ==> ReplaceExtension(name, ext) == name + "." + ext
    ensures '.' !in ext ==> Stem(ReplaceExtension(name, ext)) == Stem(name)
                            && Extension(ReplaceExtension(name, ext)) == "." + ext
  {
    SplitExtension(name);
    if '.' !in ext {
      var stem := Stem(name);
      LastDotBeforeExtension(stem, ext);
      var r := stem + "." + ext;
      assert r[..|stem|] == stem;
      assert r[|stem|..] == "." + ext;
    }
  }

  /** In `stem.ext` with no dot in `ext`, the last dot is the one after the stem. */
  lemma {:induction false} LastDotBeforeExtension(stem: string, ext: string)
    requires '.' !in ext
    ensures LastIndex(stem + "." + ext, '.') == |stem|
  {
    var r := stem + "." + ext;
    LastIndexIsLast(r, '.');
    assert r[|stem|] == '.';
    forall k | |stem| < k < |r|
      ensures r[k] != '.'
    {
      assert r[k] == ext[k - |stem| - 1];
    }
  }


}
