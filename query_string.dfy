/** Reading a request URL back the way `URL` and `URLSearchParams.get` do: the
    path is everything before the first '?', the query is split into fields at
    every '&', a field's key is what precedes its first '=' and its value what
    follows, empty fields are ignored and the first field with a given key
    wins. This decoder is what every URL builder of the pages is specified
    against. Fragments ('#') are not modelled. */
module QueryString {
  import opened Text

  /** The part of `s` before the first `c` (all of `s` when there is none). */
  function Before(s: string, c: char): (r: string)
    ensures c !in r
    ensures |r| <= |s| && r == s[..|r|]
  {
    if s == [] || s[0] == c then [] else [s[0]] + Before(s[1..], c)
  }

  /** The part of `s` after the first `c` (empty when there is none). */
  function After(s: string, c: char): (r: string)
    ensures |r| <= |s| && r == s[|s| - |r|..]
  {
    if s == [] then [] else if s[0] == c then s[1..] else After(s[1..], c)
  }

  /** Cutting at the first `c` recovers the two sides of the first `c`. */
  lemma {:induction false} CutAtFirst(a: string, c: char, b: string)
    requires c !in a
    ensures Before(a + [c] + b, c) == a
    ensures After(a + [c] + b, c) == b
  {
    if a != [] {
      assert (a + [c] + b)[1..] == a[1..] + [c] + b;
      CutAtFirst(a[1..], c, b);
      assert [a[0]] + a[1..] == a;
    } else {
      assert (a + [c] + b)[1..] == b;
    }
  }

  /** Appending after the first `c` only lengthens what comes after it. */
  lemma {:induction false} AfterAppend(s: string, c: char, x: string)
    requires c in s
    ensures After(s + x, c) == After(s, c) + x
  {
    assert (s + x)[0] == s[0];
    if s[0] != c {
      assert (s + x)[1..] == s[1..] + x;
      AfterAppend(s[1..], c, x);
    } else {
      assert (s + x)[1..] == s[1..] + x;
    }
  }

  function PathOf(url: string): string {
    Before(url, '?')
  }

  function QueryOf(url: string): string {
    After(url, '?')
  }

  function KeyOf(field: string): string {
    Before(field, '=')
  }

  function ValueOf(field: string): string {
    After(field, '=')
  }

  /** The parameters named by a list of fields; the first field of a key wins. */
  function ParamsOf(fields: seq<string>): map<string, string>
  {
    if fields == [] then map[]
    else if fields[0] == "" then ParamsOf(fields[1..])
    else ParamsOf(fields[1..])[KeyOf(fields[0]) := ValueOf(fields[0])]
  }

  /** The query parameters of a URL, as `URLSearchParams.get` reads them. */
  function QueryParams(url: string): map<string, string> {
    ParamsOf(Split(QueryOf(url), '&'))
  }

  /** A key as the builders write it: non-empty, without '&' or '='. */
  predicate IsKey(k: string) {
    k != "" && '&' !in k && '=' !in k
  }

  /** The text `&k=v` that appends the parameter `k` with value `v`. */
  function Field(k: string, v: string): string {
    "&" + k + "=" + v
  }

  /** A value that cannot end its field early. */
  predicate Plain(v: string) {
    '&' !in v
  }

  lemma {:induction false} ParamsOfSnoc(fields: seq<string>, f: string)
    requires f != ""
    ensures ParamsOf(fields + [f]) ==
      if KeyOf(f) in ParamsOf(fields) then ParamsOf(fields)
      else ParamsOf(fields)[KeyOf(f) := ValueOf(f)]
  {
    if fields != [] {
      assert (fields + [f])[1..] == fields[1..] + [f];
      ParamsOfSnoc(fields[1..], f);
    }
  }

  lemma FieldParts(k: string, v: string)
    requires IsKey(k)
    ensures KeyOf(k + "=" + v) == k && ValueOf(k + "=" + v) == v
  {
    CutAtFirst(k, '=', v);
  }

  /** A URL `path?k=v` has that path and exactly the one parameter `k`. */
  lemma FirstParam(path: string, k: string, v: string)
    requires '?' !in path && IsKey(k) && Plain(v)
    ensures PathOf(path + "?" + k + "=" + v) == path
    ensures QueryParams(path + "?" + k + "=" + v) == map[k := v]
  {
    assert path + "?" + k + "=" + v == path + ['?'] + (k + "=" + v);
    CutAtFirst(path, '?', k + "=" + v);
    assert '&' !in k + "=" + v;
    SplitPlain(k + "=" + v, '&');
    FieldParts(k, v);
    var f := k + "=" + v;
    assert f != "" && [f][1..] == [];
    assert ParamsOf([f]) == map[][KeyOf(f) := ValueOf(f)];
  }

  /** Appending `&k=v` to a URL with a query adds the parameter `k`, unless an
      earlier field already had that key; the path is unchanged. */
  lemma AddParam(url: string, k: string, v: string)
    requires '?' in url && IsKey(k) && Plain(v)
    ensures PathOf(url + "&" + k + "=" + v) == PathOf(url)
    ensures QueryParams(url + "&" + k + "=" + v) ==
      if k in QueryParams(url) then QueryParams(url) else QueryParams(url)[k := v]
  {
    var f := k + "=" + v;
    assert url + "&" + k + "=" + v == url + ("&" + f);
    AfterAppend(url, '?', "&" + f);
    assert QueryOf(url) + ("&" + f) == QueryOf(url) + ['&'] + f;
    SplitAppend(QueryOf(url), f, '&');
    assert '&' !in f;
    SplitPlain(f, '&');
    FieldParts(k, v);
    ParamsOfSnoc(Split(QueryOf(url), '&'), f);
    BeforePrefix(url, '?', "&" + f);
  }

  /** What precedes the first `c` does not change when text is appended. */
  lemma {:induction false} BeforePrefix(s: string, c: char, x: string)
    requires c in s
    ensures Before(s + x, c) == Before(s, c)
  {
    assert (s + x)[0] == s[0];
    if s[0] != c {
      assert (s + x)[1..] == s[1..] + x;
      BeforePrefix(s[1..], c, x);
    }
  }

  /** `params.get(k) || d`: the value of `k` when it is there and not empty,
      the default otherwise. */
  function ParamOr(params: map<string, string>, k: string, d: string): (r: string)
    ensures k in params && params[k] != "" ==> r == params[k]
    ensures k !in params || params[k] == "" ==> r == d
    ensures d != "" ==> r != ""
  {
    if k in params && params[k] != "" then params[k] else d
  }

  /** A URL under construction: it starts with `start`, which is `path`
      followed by '?', and, when no value written so far can start a field of
      its own, it carries exactly the parameters `params`. */
  predicate Building(url: string, path: string, start: string, plain: bool, params: map<string, string>) {
    && '?' !in path && |start| > |path| && start[..|path|] == path && start[|path|] == '?'
    && |url| >= |start| && url[..|start|] == start
    && (plain ==> QueryParams(url) == params)
  }

  /** The first field: `path?k=v`. */
  lemma StartAt(path: string, k: string, v: string, plain: bool)
    requires '?' !in path && IsKey(k) && (plain ==> Plain(v))
    ensures Building(path + "?" + k + "=" + v, path, path + "?" + k + "=" + v, plain, map[k := v])
  {
    var url := path + "?" + k + "=" + v;
    assert url == path + ['?'] + (k + "=" + v);
    assert url[..|path|] == path && url[|path|] == '?';
    if plain {
      FirstParam(path, k, v);
    }
  }

  /** Appending `&k=v` for a key not added before adds that parameter. */
  lemma Step(url: string, path: string, start: string, plain: bool, params: map<string, string>, k: string, v: string)
    requires Building(url, path, start, plain, params) && IsKey(k) && k !in params && (plain ==> Plain(v))
    ensures Building(url + Field(k, v), path, start, plain, params[k := v])
  {
    assert url[|path|] == start[|path|];
    assert url[|path|] in url;
    assert url + Field(k, v) == url + "&" + k + "=" + v;
    if plain {
      AddParam(url, k, v);
    }
    assert (url + Field(k, v))[..|start|] == url[..|start|];
  }

  /** `url` with `&k=v` appended when the filter is set. */
  function AddIf(url: string, cond: bool, k: string, v: string): string {
    if cond then url + Field(k, v) else url
  }

  /** Appending the optional field `k` keeps the URL under construction. */
  lemma StepIf(url: string, path: string, start: string, plain: bool, params: map<string, string>,
               cond: bool, k: string, v: string)
    requires Building(url, path, start, plain, params)
    requires cond ==> IsKey(k) && k !in params && (plain ==> Plain(v))
    ensures Building(AddIf(url, cond, k, v), path, start, plain, if cond then params[k := v] else params)
  {
    if cond {
      Step(url, path, start, plain, params, k, v);
    }
  }

  /** A URL under construction has the path it was started with. */
  lemma BuildingPath(url: string, path: string, start: string, plain: bool, params: map<string, string>)
    requires Building(url, path, start, plain, params)
    ensures PathOf(url) == path
  {
    assert url[..|path|] == path && url[|path|] == '?';
    assert url == path + ['?'] + url[|path| + 1..];
    CutAtFirst(path, '?', url[|path| + 1..]);
  }
}
