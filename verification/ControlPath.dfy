/** The control path that is probed beside a reported path: same directory, same routing bucket, random name. */
module ControlPath {
  import opened ProcessingKeys

  datatype Option<T> = None | Some(value: T)

  /** The classes a scanner's request falls into by the shape of its last segment. */
  datatype Bucket = Directory | Dotfile | NoExtension | Extension(ext: string) | Odd

  predicate EndsInSlash(path: string) { path != "" && path[|path| - 1] == '/' }

  function TrimSlash(path: string): string {
    if EndsInSlash(path) then path[..|path| - 1] else path
  }

  /** The directory the path's own name sits in, with its trailing slash. */
  function Parent(path: string): Option<string> {
    var slash := LastIndex(TrimSlash(path), '/');
    if slash < 0 then None else Some(path[..slash + 1])
  }

  function Base(path: string): string { path[LastIndex(path, '/') + 1..] }

  /** The part of `s` before the first `c`. */
  function Before(s: string, c: char): (r: string)
    ensures r <= s && c !in r
    ensures c !in s ==> r == s
  {
    if s == "" || s[0] == c then "" else [s[0]] + Before(s[1..], c)
  }

  predicate AlphaNumeric(c: char) { 'A' <= c <= 'Z' || 'a' <= c <= 'z' || '0' <= c <= '9' }

  predicate PlainExtension(ext: string) {
    1 <= |ext| <= 16 && forall i :: 0 <= i < |ext| ==> AlphaNumeric(ext[i])
  }

  /** The dotfile test comes before a query is cut off, as the scanner has it. */
  function BaseBucket(base: string): Bucket {
    if |base| > 1 && base[0] == '.' && base[1] != '.' && base[1] != '%' then Dotfile
    else
      var b := Before(Before(Before(base, '?'), '&'), '%');
      var dot := LastIndex(b, '.');
      if dot < 0 then NoExtension
      else if PlainExtension(b[dot + 1..]) then Extension(b[dot + 1..])
      else Odd
  }

  function BucketOf(path: string): Bucket {
    if EndsInSlash(path) then Directory else BaseBucket(Base(path))
  }

  /** The random name dressed up for a bucket. */
  function NameFor(b: Bucket, nonce: string): Option<string> {
    match b
    case Directory => Some(nonce + "/")
    case Dotfile => Some("." + nonce)
    case NoExtension => Some(nonce)
    case Extension(ext) => Some(nonce + "." + ext)
    case Odd => None
  }

  function ControlName(path: string, nonce: string): Option<string> { NameFor(BucketOf(path), nonce) }

  function ControlFor(path: string, nonce: string): Option<string> {
    if path == "" || path == "/" || Parent(path).None? || ControlName(path, nonce).None? then None
    else Some(Parent(path).value + ControlName(path, nonce).value)
  }

  // What a path's control looks like, by the shape of the path ------------

  /** A cut-off query, or an escape. */
  predicate Tail(tail: string) { tail == "" || tail[0] == '?' || tail[0] == '&' || tail[0] == '%' }

  predicate Uncut(name: string) { '?' !in name && '&' !in name && '%' !in name }

  predicate Dotted(base: string) { |base| > 1 && base[0] == '.' && base[1] != '.' && base[1] != '%' }

  lemma BeforeStep(x: char, s: string, c: char)
    requires x != c
    ensures Before([x] + s, c) == [x] + Before(s, c)
  {
    assert ([x] + s)[1..] == s;
  }

  lemma {:induction false} BeforeTail(name: string, tail: string, c: char)
    requires c !in name
    ensures Before(name + tail, c) == name + Before(tail, c)
    decreases |name|
  {
    if name == "" {
      assert name + tail == tail;
    } else {
      var x, rest := name[0], name[1..];
      assert x in name && name == [x] + rest;
      BeforeTail(rest, tail, c);
      BeforeStep(x, rest + tail, c);
      Reassociated(x, rest, tail);
      Reassociated(x, rest, Before(tail, c));
    }
  }

  lemma Reassociated(x: char, a: string, b: string)
    ensures ([x] + a) + b == [x] + (a + b)
  {
  }

  /** Whatever comes after the name is cut off. */
  lemma TailCut(name: string, tail: string)
    requires Uncut(name) && Tail(tail)
    ensures Before(Before(Before(name + tail, '?'), '&'), '%') == name
  {
    BeforeTail(name, tail, '?');
    var tail1 := Before(tail, '?');
    assert Tail(tail1);
    BeforeTail(name, tail1, '&');
    var tail2 := Before(tail1, '&');
    assert Tail(tail2);
    BeforeTail(name, tail2, '%');
    assert tail2 == "" || tail2[0] == '%';
    assert name + "" == name;
  }

  /** The parent and the last segment of a path that is not a directory. */
  lemma LastSegment(dir: string, base: string)
    requires EndsInSlash(dir) && base != "" && '/' !in base
    ensures var path := dir + base;
            !EndsInSlash(path) && path != "/" && Parent(path) == Some(dir) && Base(path) == base
  {
    SiblingOf(dir, base);
    assert (dir + base)[|dir + base| - 1] == base[|base| - 1];
  }

  /** A directory's control is a directory beside it, under the same parent. */
  lemma DirectoryControl(dir: string, base: string, nonce: string)
    requires EndsInSlash(dir) && '/' !in base
    ensures ControlFor(dir + base + "/", nonce) == Some(dir + nonce + "/")
  {
    var path := dir + base + "/";
    var root := dir[..|dir| - 1];
    assert TrimSlash(path) == root + ['/'] + base;
    LastIndexIs(root, '/', base);
    assert path[..|dir|] == dir;
    assert dir + (nonce + "/") == dir + nonce + "/";
  }

  /** Any other control is the parent and a name that depends on the last segment's bucket. */
  lemma FileControl(dir: string, base: string, nonce: string)
    requires EndsInSlash(dir) && '/' !in base && base != ""
    ensures var name := NameFor(BaseBucket(base), nonce);
            ControlFor(dir + base, nonce) == if name.None? then None else Some(dir + name.value)
  {
    LastSegment(dir, base);
  }

  /** A dotfile's control is a dotfile, whatever follows the reported name. */
  lemma DotfileControl(dir: string, base: string, nonce: string)
    requires EndsInSlash(dir) && '/' !in base && Dotted(base)
    ensures ControlFor(dir + base, nonce) == Some(dir + "." + nonce)
  {
    FileControl(dir, base, nonce);
    assert dir + ("." + nonce) == dir + "." + nonce;
  }

  lemma PlainBase(name: string, tail: string)
    requires Uncut(name) && Tail(tail) && '.' !in name
    ensures BaseBucket(name + tail) == NoExtension
  {
    TailCut(name, tail);
    assert name != "" ==> name[0] in name && (name + tail)[0] == name[0];
    assert name == "" ==> name + tail == tail;
  }

  /** A name without a dot stands for its class alone; a query or an escape after it does not matter. */
  lemma PlainControl(dir: string, name: string, tail: string, nonce: string)
    requires EndsInSlash(dir) && '/' !in name && '/' !in tail && name + tail != ""
    requires Uncut(name) && Tail(tail) && '.' !in name
    ensures ControlFor(dir + (name + tail), nonce) == Some(dir + nonce)
  {
    PlainBase(name, tail);
    FileControl(dir, name + tail, nonce);
  }

  lemma ExtensionBase(stem: string, ext: string, tail: string)
    requires Uncut(stem) && Uncut(ext) && Tail(tail) && '.' !in ext && !Dotted(stem + "." + ext + tail)
    ensures BaseBucket(stem + "." + ext + tail) == if PlainExtension(ext) then Extension(ext) else Odd
  {
    var name := stem + "." + ext;
    NotIn(stem, ext, '?');
    NotIn(stem, ext, '&');
    NotIn(stem, ext, '%');
    TailCut(name, tail);
    ExtensionFound(stem, ext);
  }

  /** Letters and digits, 1 to 16 of them. */
  lemma PlainMeans(ext: string)
    ensures PlainExtension(ext) <==>
              1 <= |ext| <= 16 && forall c :: c in ext ==> 'A' <= c <= 'Z' || 'a' <= c <= 'z' || '0' <= c <= '9'
  {
    assert forall i :: 0 <= i < |ext| ==> ext[i] in ext;
  }

  lemma NoSlashes(stem: string, ext: string, tail: string)
    requires '/' !in stem && '/' !in ext && '/' !in tail
    ensures '/' !in stem + "." + ext + tail
  {
  }

  /** A name with an extension has a control with the same one if it consists of 1 to 16 letters and digits, and
      otherwise none. */
  lemma ExtensionControl(dir: string, stem: string, ext: string, tail: string, nonce: string)
    requires EndsInSlash(dir) && '/' !in stem && '/' !in ext && '/' !in tail
    requires Uncut(stem) && Uncut(ext) && Tail(tail) && '.' !in ext && !Dotted(stem + "." + ext + tail)
    ensures ControlFor(dir + (stem + "." + ext + tail), nonce)
         == if 1 <= |ext| <= 16 && forall c :: c in ext ==> 'A' <= c <= 'Z' || 'a' <= c <= 'z' || '0' <= c <= '9'
            then Some(dir + (nonce + "." + ext)) else None
  {
    ExtensionBase(stem, ext, tail);
    PlainMeans(ext);
    NoSlashes(stem, ext, tail);
    FileControl(dir, stem + "." + ext + tail, nonce);
  }

  /** The root and a path without a parent have none. */
  lemma RootControl(name: string, nonce: string)
    requires '/' !in name
    ensures ControlFor("", nonce) == ControlFor("/", nonce) == None
    ensures ControlFor(name, nonce) == ControlFor(name + "/", nonce) == None
  {
    assert TrimSlash(name + "/") == name;
    assert name != "" ==> name[|name| - 1] in name;
  }

  /** Every last segment is of one of these shapes. */
  lemma Shapes(base: string) returns (stem: string, ext: string, tail: string)
    ensures Uncut(stem) && Uncut(ext) && Tail(tail) && '.' !in ext
    ensures ('.' !in stem && base == stem + tail) || base == stem + "." + ext + tail
  {
    var name;
    name, tail := CutAt(base);
    var dot := LastIndex(name, '.');
    if dot < 0 {
      stem, ext := name, "";
    } else {
      stem, ext := name[..dot], name[dot + 1..];
      assert name == stem + "." + ext;
    }
  }

  lemma CutAt(base: string) returns (name: string, tail: string)
    ensures base == name + tail && Uncut(name) && Tail(tail)
  {
    if Tail(base) {
      name, tail := "", base;
    } else {
      name, tail := CutAt(base[1..]);
      name := [base[0]] + name;
      assert base == [base[0]] + base[1..];
    }
  }

  predicate IsHex(nonce: string) {
    nonce != "" && forall i :: 0 <= i < |nonce| ==> '0' <= nonce[i] <= '9' || 'a' <= nonce[i] <= 'f'
  }

  predicate OccursAt(part: string, s: string, i: nat) {
    i + |part| <= |s| && s[i..i + |part|] == part
  }

  ghost predicate Occurs(part: string, s: string) {
    exists i: nat :: OccursAt(part, s, i)
  }

  lemma ParentEndsInSlash(path: string)
    requires Parent(path).Some?
    ensures var p := Parent(path).value; p != "" && p[|p| - 1] == '/'
  {
    var slash := LastIndex(TrimSlash(path), '/');
    assert TrimSlash(path)[slash] == path[slash];
  }

  lemma HexIsPlain(nonce: string)
    requires IsHex(nonce)
    ensures '.' !in nonce && '?' !in nonce && '&' !in nonce && '%' !in nonce && '/' !in nonce
  {
  }

  lemma DotfileName(nonce: string)
    requires IsHex(nonce)
    ensures BaseBucket("." + nonce) == Dotfile && '/' !in "." + nonce
  {
    HexIsPlain(nonce);
    assert ("." + nonce)[1] == nonce[0] && nonce[0] in nonce;
  }

  lemma NoExtensionName(nonce: string)
    requires IsHex(nonce)
    ensures BaseBucket(nonce) == NoExtension
  {
    HexIsPlain(nonce);
    assert nonce[0] in nonce;
    assert Before(Before(Before(nonce, '?'), '&'), '%') == nonce;
  }

  lemma NoCut(name: string)
    requires '?' !in name && '&' !in name && '%' !in name
    ensures Before(Before(Before(name, '?'), '&'), '%') == name
  {
  }

  lemma PlainIsPlain(ext: string)
    requires PlainExtension(ext)
    ensures '.' !in ext && '?' !in ext && '&' !in ext && '%' !in ext && '/' !in ext
  {
  }

  lemma ExtensionFound(nonce: string, ext: string)
    requires '.' !in ext
    ensures LastIndex(nonce + "." + ext, '.') == |nonce| && (nonce + "." + ext)[|nonce| + 1..] == ext
  {
    assert nonce + "." + ext == nonce + ['.'] + ext;
    LastIndexIs(nonce, '.', ext);
  }

  lemma NotIn(nonce: string, ext: string, c: char)
    requires c !in nonce && c != '.' && c !in ext
    ensures c !in nonce + "." + ext
  {
  }

  lemma ExtensionName(nonce: string, ext: string)
    requires IsHex(nonce) && PlainExtension(ext)
    ensures BaseBucket(nonce + "." + ext) == Extension(ext) && '/' !in nonce + "." + ext
  {
    HexIsPlain(nonce);
    PlainIsPlain(ext);
    var name := nonce + "." + ext;
    assert name[0] == nonce[0] && nonce[0] in nonce;
    NotIn(nonce, ext, '?');
    NotIn(nonce, ext, '&');
    NotIn(nonce, ext, '%');
    NotIn(nonce, ext, '/');
    NoCut(name);
    ExtensionFound(nonce, ext);
  }

  /** A hex nonce dressed up for a bucket is classified into that bucket. */
  lemma NameKeepsBucket(path: string, nonce: string)
    requires IsHex(nonce) && ControlName(path, nonce).Some? && !EndsInSlash(path)
    ensures var name := ControlName(path, nonce).value;
            BaseBucket(name) == BucketOf(path) && name != "" && '/' !in name
  {
    PlainBucket(Base(path));
    var b := BucketOf(path);
    if b.Dotfile? {
      DotfileName(nonce);
    } else if b.NoExtension? {
      HexIsPlain(nonce);
      NoExtensionName(nonce);
    } else {
      ExtensionName(nonce, b.ext);
    }
  }

  lemma PlainBucket(base: string)
    ensures BaseBucket(base).Extension? ==> PlainExtension(BaseBucket(base).ext)
    ensures !BaseBucket(base).Directory?
  {
  }

  lemma LastSlash(parent: string, name: string)
    requires EndsInSlash(parent) && '/' !in name
    ensures LastIndex(parent + name, '/') == |parent| - 1
    ensures (parent + name)[..|parent|] == parent && (parent + name)[|parent|..] == name
  {
    var root := parent[..|parent| - 1];
    assert parent + name == root + ['/'] + name;
    LastIndexIs(root, '/', name);
  }

  lemma SiblingOf(parent: string, name: string)
    requires EndsInSlash(parent) && name != "" && '/' !in name
    ensures Parent(parent + name) == Some(parent) && Base(parent + name) == name && !EndsInSlash(parent + name)
    ensures Parent(parent + (name + "/")) == Some(parent) && EndsInSlash(parent + (name + "/"))
  {
    LastSlash(parent, name);
    NoSlashAtEnd(parent, name);
    var dir := parent + (name + "/");
    assert TrimSlash(dir) == parent + name;
    assert dir[..|parent|] == (parent + name)[..|parent|];
  }

  lemma NoSlashAtEnd(parent: string, name: string)
    requires name != "" && '/' !in name
    ensures !EndsInSlash(parent + name)
  {
    assert name[|name| - 1] in name;
    assert (parent + name)[|parent + name| - 1] == name[|name| - 1];
  }

  /** The control sits in the same directory and the same bucket as the reported path. */
  lemma ControlIsSibling(path: string, nonce: string)
    requires IsHex(nonce)
    ensures var control := ControlFor(path, nonce);
            control.Some? ==> Parent(control.value) == Parent(path) && BucketOf(control.value) == BucketOf(path)
  {
    if ControlFor(path, nonce).Some? {
      var parent, name := Parent(path).value, ControlName(path, nonce).value;
      ParentEndsInSlash(path);
      if EndsInSlash(path) {
        HexIsPlain(nonce);
        SiblingOf(parent, nonce);
      } else {
        NameKeepsBucket(path, nonce);
        NameSits(parent, name);
      }
    }
  }

  lemma NameSits(parent: string, name: string)
    requires EndsInSlash(parent) && name != "" && '/' !in name
    ensures Parent(parent + name) == Some(parent) && BucketOf(parent + name) == BaseBucket(name)
  {
    SiblingOf(parent, name);
  }

  /** Two paths share a control exactly when directory and bucket agree. */
  lemma SharedControl(p: string, q: string, nonce: string)
    requires IsHex(nonce)
    ensures ControlFor(p, nonce).Some? && ControlFor(q, nonce).Some? ==>
              (ControlFor(p, nonce) == ControlFor(q, nonce) <==> Parent(p) == Parent(q) && BucketOf(p) == BucketOf(q))
  {
    if ControlFor(p, nonce).Some? && ControlFor(q, nonce).Some? {
      ControlIsSibling(p, nonce);
      ControlIsSibling(q, nonce);
    }
  }

  lemma OccursBetween(a: string, part: string, b: string)
    ensures Occurs(part, a + part + b)
  {
    assert (a + part + b)[|a|..|a| + |part|] == part;
    assert OccursAt(part, a + part + b, |a|);
  }

  lemma NameHasNonce(parent: string, b: Bucket, nonce: string)
    requires !b.Odd?
    ensures Occurs(nonce, parent + NameFor(b, nonce).value)
  {
    match b
    case Directory =>
      OccursBetween(parent, nonce, "/");
      assert parent + (nonce + "/") == parent + nonce + "/";
    case Dotfile =>
      OccursBetween(parent + ".", nonce, "");
      assert parent + ("." + nonce) == parent + "." + nonce + "";
    case NoExtension =>
      OccursBetween(parent, nonce, "");
      assert parent + nonce == parent + nonce + "";
    case Extension(ext) =>
      OccursBetween(parent, nonce, "." + ext);
      assert parent + (nonce + "." + ext) == parent + nonce + ("." + ext);
  }

  /** A path that does not happen to contain the nonce is never its own control. */
  lemma ControlIsElsewhere(path: string, nonce: string)
    ensures ControlFor(path, nonce).Some? ==> Occurs(nonce, ControlFor(path, nonce).value)
    ensures !Occurs(nonce, path) ==> ControlFor(path, nonce) != Some(path)
  {
    if ControlFor(path, nonce).Some? {
      NameHasNonce(Parent(path).value, BucketOf(path), nonce);
    }
  }

  /** A control depends on nothing but parent and bucket. */
  lemma SameParentAndBucket(p: string, q: string, nonce: string)
    ensures ControlFor(p, nonce).Some? && q != "" && q != "/" && Parent(p) == Parent(q) && BucketOf(p) == BucketOf(q)
            ==> ControlFor(q, nonce) == ControlFor(p, nonce)
  {
  }

  lemma NotTheRoot(path: string, nonce: string)
    ensures nonce != "" && ControlFor(path, nonce).Some? ==> |ControlFor(path, nonce).value| >= 2
  {
    if nonce != "" && ControlFor(path, nonce).Some? {
      ParentEndsInSlash(path);
      assert |ControlFor(path, nonce).value| == |Parent(path).value| + |ControlName(path, nonce).value|;
    }
  }

  /** Probing the control again would probe the same control. */
  lemma ControlOfControl(path: string, nonce: string)
    requires IsHex(nonce)
    ensures ControlFor(path, nonce).Some? ==>
              ControlFor(ControlFor(path, nonce).value, nonce) == ControlFor(path, nonce)
  {
    if ControlFor(path, nonce).Some? {
      ControlIsSibling(path, nonce);
      NotTheRoot(path, nonce);
      SameParentAndBucket(path, ControlFor(path, nonce).value, nonce);
    }
  }

  // URLs ------------------------------------------------------------------

  /** A parsed url. `host` stands for everything between scheme and path, `rawPath` is the encoded spelling of the path
      where it is not the default one, and `bareQuery` marks a url that ends in a question mark with no query. */
  datatype Url = Url(scheme: string, host: string, path: string, rawPath: string, query: string, bareQuery: bool,
                     fragment: string)

  /** The parsed url with only the path replaced; a bare question mark is carried over. */
  function ControlUrl(u: Option<Url>, nonce: string): Option<Url> {
    if u.None? || u.value.host == "" || ControlFor(u.value.path, nonce).None? then None
    else Some(u.value.(path := ControlFor(u.value.path, nonce).value, rawPath := "", query := "", fragment := ""))
  }

  /** What a control url depends on. */
  predicate SameSpot(u: Url, v: Url) {
    && u.scheme == v.scheme && u.host == v.host && u.bareQuery == v.bareQuery
    && Parent(u.path) == Parent(v.path) && BucketOf(u.path) == BucketOf(v.path)
  }

  /** Two reported urls are compared against the same control exactly when scheme, host, directory and bucket agree,
      and either both or neither end in a bare question mark. */
  lemma SharedControlUrl(u: Url, v: Url, nonce: string)
    requires IsHex(nonce)
    ensures ControlUrl(Some(u), nonce).Some? && ControlUrl(Some(v), nonce).Some? ==>
              (ControlUrl(Some(u), nonce) == ControlUrl(Some(v), nonce) <==> SameSpot(u, v))
  {
    SharedControl(u.path, v.path, nonce);
  }

  /** The bare question mark matters: same host, directory and bucket, two controls. */
  lemma BareQuerySeparates(u: Url, nonce: string)
    ensures ControlUrl(Some(u), nonce).Some? ==>
              ControlUrl(Some(u), nonce) != ControlUrl(Some(u.(bareQuery := !u.bareQuery)), nonce)
  {
    if ControlUrl(Some(u), nonce).Some? {
      assert ControlUrl(Some(u), nonce).value.bareQuery == u.bareQuery;
    }
  }
}
