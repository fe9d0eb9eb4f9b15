/**
 * The part of `urllib.parse.urlparse` the orchestrator depends on, the
 * `s3://bucket/key` prefix split built on it, and the key and location
 * formats used for uploads, manifests and job outputs.
 */
module S3Uri {
  import opened Wrappers
  import opened Text

  datatype Url = Url(scheme: string, netloc: string, path: string)

  predicate IsLetter(ch: char) {
    'a' <= ch <= 'z' || 'A' <= ch <= 'Z'
  }

  predicate IsSchemeChar(ch: char) {
    IsLetter(ch) || '0' <= ch <= '9' || ch == '+' || ch == '-' || ch == '.'
  }

  /** The characters that end the network location of a URL. */
  const NetlocEnd: set<char> := {'/', '?', '#'}

  /** The scheme, lower-cased, when `s` starts with a letter and scheme characters up to a ':'; and the rest. */
  function SplitScheme(s: string): (string, string) {
    var i := IndexWhere(s, {':'});
    if 0 < i < |s| && IsLetter(s[0]) && (forall j :: 0 <= j < i ==> IsSchemeChar(s[j]))
    then (Lower(s[..i]), s[i + 1..])
    else ("", s)
  }

  /** After "//", the network location up to the first '/', '?' or '#'; and the rest. */
  function SplitNetloc(rest: string): (r: (string, string))
    ensures forall ch :: ch in NetlocEnd ==> ch !in r.0
  {
    if StartsWith(rest, "//") then
      var e := 2 + IndexWhere(rest[2..], NetlocEnd);
      (rest[2..e], rest[e..])
    else ("", rest)
  }

  /** The path: everything before the query or the fragment. */
  function PathOf(tail: string): (r: string)
    ensures '?' !in r && '#' !in r
  {
    tail[..IndexWhere(tail, {'?', '#'})]
  }

  /**
   * `urlparse(s)` restricted to scheme, netloc and path: the scheme is the
   * lower-cased text before the first ':' when it is a letter followed by
   * scheme characters; a netloc follows only after "//" and runs to the first
   * '/', '?' or '#'; the path stops at the first '?' or '#'.
   */
  function ParseUrl(s: string): (u: Url)
    ensures forall ch :: ch in NetlocEnd ==> ch !in u.netloc
    ensures '?' !in u.path && '#' !in u.path
  {
    var (scheme, rest) := SplitScheme(s);
    var (netloc, tail) := SplitNetloc(rest);
    Url(scheme, netloc, PathOf(tail))
  }

  /**
   * The check `_parse_s3_prefix` makes of an `s3://bucket/key` prefix: the
   * scheme must be "s3" and the netloc non-empty; the key is the path without
   * its leading '/'. `None` is the case in which the source raises.
   */
  function SplitS3Prefix(prefix: string): (r: Option<(string, string)>)
    ensures r.Some? ==> r.value.0 != "" && forall ch :: ch in NetlocEnd ==> ch !in r.value.0
    ensures r.Some? ==> (r.value.1 == [] || r.value.1[0] != '/') && '?' !in r.value.1 && '#' !in r.value.1
  {
    var u := ParseUrl(prefix);
    if u.scheme != "s3" || u.netloc == "" then None else Some((u.netloc, LStrip(u.path, '/')))
  }

  /** `f"s3://{bucket}/{key}"`. */
  function Location(bucket: string, key: string): string {
    "s3://" + bucket + "/" + key
  }

  /** `f"{key_prefix}/{rel}" if key_prefix else rel`. */
  function ObjectKey(keyPrefix: string, rel: string): (r: string)
    ensures EndsWith(r, rel)
    ensures keyPrefix != "" ==> StartsWith(r, keyPrefix + "/")
    ensures keyPrefix == "" ==> r == rel
  {
    if keyPrefix != "" then keyPrefix + "/" + rel else rel
  }

  lemma SchemeOfS3(rest: string)
    ensures SplitScheme("s3:" + rest) == ("s3", rest)
  {
    var s := "s3:" + rest;
    IndexWhereAppend("s3", ":" + rest, {':'});
    assert s == "s3" + (":" + rest);
    assert IndexWhere(s, {':'}) == 2;
    assert Lower(s[..2]) == "s3";
  }

  lemma NetlocOf(netloc: string, tail: string)
    requires forall ch :: ch in NetlocEnd ==> ch !in netloc
    requires tail == [] || tail[0] in NetlocEnd
    ensures SplitNetloc("//" + netloc + tail) == (netloc, tail)
  {
    var rest := "//" + netloc + tail;
    assert rest[2..] == netloc + tail;
    IndexWhereAppend(netloc, tail, NetlocEnd);
    assert rest[2..2 + |netloc|] == netloc;
    assert rest[2 + |netloc|..] == tail;
  }

  /** A prefix that splits is at least "s3://" and one bucket character long. */
  lemma SplitS3PrefixLength(prefix: string)
    requires SplitS3Prefix(prefix).Some?
    ensures |prefix| >= 6
  {
    var i := IndexWhere(prefix, {':'});
    assert 0 < i < |prefix|;
    assert |Lower(prefix[..i])| == i == 2;
    var rest := prefix[i + 1..];
    assert SplitScheme(prefix).1 == rest;
    assert SplitNetloc(rest).0 != "";
    assert StartsWith(rest, "//");
  }

  /** An `s3:` prefix that splits has a network location, so its first character after "//" ends none. */
  lemma NetlocAfterScheme(rest: string)
    requires SplitS3Prefix("s3:" + rest).Some?
    ensures |rest| > 2 && rest[..2] == "//" && rest[2] !in NetlocEnd
  {
    SchemeOfS3(rest);
    var netloc := SplitNetloc(rest).0;
    assert netloc != "";
    assert StartsWith(rest, "//");
    assert netloc[0] == rest[2];
  }

  /** `urlparse` of a location reads back its scheme, its bucket and "/" followed by the key, up to a query. */
  lemma ParseUrlOfLocation(bucket: string, key: string)
    requires forall ch :: ch in NetlocEnd ==> ch !in bucket
    ensures ParseUrl(Location(bucket, key)) == Url("s3", bucket, PathOf("/" + key))
  {
    var tail := "/" + key;
    assert Location(bucket, key) == "s3:" + ("//" + bucket + tail);
    SchemeOfS3("//" + bucket + tail);
    NetlocOf(bucket, tail);
  }

  /** A text without a query or a fragment is its own path. */
  lemma PathOfPlain(tail: string)
    requires '?' !in tail && '#' !in tail
    ensures PathOf(tail) == tail
  {
    assert IndexWhere(tail, {'?', '#'}) == |tail|;
  }

  /** A location built from a bucket and a key parses back into that bucket and key. */
  lemma ParseLocation(bucket: string, key: string)
    requires bucket != ""
    requires forall ch :: ch in NetlocEnd ==> ch !in bucket
    requires '?' !in key && '#' !in key
    ensures SplitS3Prefix(Location(bucket, key)) == Some((bucket, LStrip(key, '/')))
  {
    var tail := "/" + key;
    ParseUrlOfLocation(bucket, key);
    PathOfPlain(tail);
    assert LStrip(tail, '/') == LStrip(key, '/');
  }

  /** A location built from a bucket parses, whatever its key, with that bucket. */
  lemma ParseLocationSome(bucket: string, key: string)
    requires bucket != ""
    requires forall ch :: ch in NetlocEnd ==> ch !in bucket
    ensures SplitS3Prefix(Location(bucket, key)).Some?
    ensures SplitS3Prefix(Location(bucket, key)).value.0 == bucket
  {
    ParseUrlOfLocation(bucket, key);
  }

  /** A bare `s3://bucket` parses into the bucket and an empty key. */
  lemma ParseBucketOnly(bucket: string)
    requires bucket != ""
    requires forall ch :: ch in NetlocEnd ==> ch !in bucket
    ensures SplitS3Prefix("s3://" + bucket) == Some((bucket, ""))
  {
    assert "s3://" + bucket == "s3:" + ("//" + bucket + "");
    SchemeOfS3("//" + bucket + "");
    NetlocOf(bucket, "");
  }
}
