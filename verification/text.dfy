/** String utilities the launch-URL builders are measured against: ASCII
    lower-casing for the environment switch, and a small query-string reader
    that recovers the parameters a builder concatenated. The components
    are split as in the generic URI syntax of RFC 3986 (section 3): the
    fragment from the first '#' is dropped, and the query starts after the
    first '?'. The query is then read by the form-urlencoded convention:
    split on '&', each parameter cut at its first '='. It does no
    decoding. The reader is not part of the SDK; it is the
    independent partner the builders are proved against. */
module Text {
  import opened Wrappers

  /** Lower-case one character; only 'A'..'Z' change. */
  function LowerChar(c: char): char {
    if 'A' <= c <= 'Z' then (c as int + 32) as char else c
  }

  /** `String.lowercased()`, restricted to ASCII letters. */
  function Lower(s: string): (r: string)
    ensures |r| == |s|
    ensures forall i :: 0 <= i < |s| ==> r[i] == LowerChar(s[i])
  {
    if |s| == 0 then "" else [LowerChar(s[0])] + Lower(s[1..])
  }

  /** Two strings that differ only in the case of ASCII letters. */
  predicate EqualsIgnoringCase(a: string, b: string) {
    |a| == |b| && forall i :: 0 <= i < |a| ==> LowerChar(a[i]) == LowerChar(b[i])
  }

  /** A string with no upper-case ASCII letter. */
  predicate IsLowerCase(s: string) {
    forall i :: 0 <= i < |s| ==> !('A' <= s[i] <= 'Z')
  }

  /** Comparing the lower-cased string with a lower-case constant is the
      same as comparing the two strings while ignoring case. */
  lemma LowerEqualsIff(s: string, t: string)
    requires IsLowerCase(t)
    ensures Lower(s) == t <==> EqualsIgnoringCase(s, t)
  {
    if EqualsIgnoringCase(s, t) {
      forall i | 0 <= i < |s|
        ensures Lower(s)[i] == t[i]
      {
        assert LowerChar(t[i]) == t[i];
      }
    }
  }

  /** Split `s` at every occurrence of `sep`; never empty. */
  function Split(s: string, sep: char): (parts: seq<string>)
    ensures |parts| >= 1
    ensures forall i :: 0 <= i < |parts| ==> sep !in parts[i]
  {
    if |s| == 0 then [""]
    else
      var rest := Split(s[1..], sep);
      if s[0] == sep then [""] + rest
      else [[s[0]] + rest[0]] + rest[1..]
  }

  /** Glue a non-empty list of parts together, `sep` between neighbours. */
  function Join(parts: seq<string>, sep: char): string
    requires |parts| >= 1
  {
    if |parts| == 1 then parts[0] else parts[0] + [sep] + Join(parts[1..], sep)
  }

  /** Splitting a prefix free of `sep` only lengthens the first piece. */
  lemma {:induction false} SplitFreePrefix(p: string, tail: string, sep: char)
    requires sep !in p
    ensures Split(p + tail, sep) == [p + Split(tail, sep)[0]] + Split(tail, sep)[1..]
  {
    if |p| > 0 {
      assert (p + tail)[1..] == p[1..] + tail;
      SplitFreePrefix(p[1..], tail, sep);
      assert [p[0]] + (p[1..] + Split(tail, sep)[0]) == p + Split(tail, sep)[0];
    } else {
      var parts := Split(tail, sep);
      assert p + tail == tail;
      assert p + parts[0] == parts[0];
      assert [parts[0]] + parts[1..] == parts;
    }
  }

  /** Split undoes Join when no part contains the separator. */
  lemma {:induction false} SplitJoin(parts: seq<string>, sep: char)
    requires |parts| >= 1
    requires forall i :: 0 <= i < |parts| ==> sep !in parts[i]
    ensures Split(Join(parts, sep), sep) == parts
  {
    if |parts| == 1 {
      SplitFreePrefix(parts[0], "", sep);
      assert parts[0] + "" == parts[0];
    } else {
      var rest := Join(parts[1..], sep);
      SplitJoin(parts[1..], sep);
      assert parts[0] + [sep] + rest == parts[0] + ([sep] + rest);
      SplitFreePrefix(parts[0], [sep] + rest, sep);
      assert ([sep] + rest)[1..] == rest;
      assert parts[0] + "" == parts[0];
      assert [parts[0]] + parts[1..] == parts;
    }
  }

  /** The text before and after the first `c` in `s`, if `c` occurs. */
  function Cut(s: string, c: char): (r: Option<(string, string)>)
    ensures r.None? <==> c !in s
    ensures r.Some? ==> s == r.value.0 + [c] + r.value.1 && c !in r.value.0
  {
    if |s| == 0 then None
    else if s[0] == c then Some(("", s[1..]))
    else match Cut(s[1..], c)
      case None => None
      case Some((before, after)) => Some(([s[0]] + before, after))
  }

  /** Cutting at `c` finds the first `c`, so a prefix free of `c` comes back
      whole. */
  lemma CutAfterFreePrefix(a: string, c: char, b: string)
    requires c !in a
    ensures Cut(a + [c] + b, c) == Some((a, b))
  {
    var r := Cut(a + [c] + b, c);
    assert (a + [c] + b)[|a|] == c;
    var before, after := r.value.0, r.value.1;
    CutUnique(a, b, before, after, c);
  }

  /** A string has only one decomposition around its first `c`. */
  lemma {:induction false} CutUnique(a: string, b: string, a': string, b': string, c: char)
    requires c !in a && c !in a'
    requires a + [c] + b == a' + [c] + b'
    ensures a == a' && b == b'
  {
    var s := a + [c] + b;
    assert s[|a|] == c && s[|a'|] == c;
    assert forall i :: 0 <= i < |a| ==> s[i] == a[i];
    assert forall i :: 0 <= i < |a'| ==> s[i] == a'[i];
    assert |a| == |a'|;
    assert a == s[..|a|] == a';
    assert b == s[|a| + 1..] == b';
  }

  /** One query parameter: the key and the (possibly empty) value. */
  datatype Param = Param(key: string, value: string)

  /** Read `key=value`, cutting at the first '='; no '=' means an empty
      value. */
  function ReadParam(p: string): Param {
    match Cut(p, '=')
    case Some((k, v)) => Param(k, v)
    case None => Param(p, "")
  }

  /** `url` without its fragment: everything before its first '#'. */
  function WithoutFragment(url: string): (r: string)
    ensures '#' !in r
    ensures '#' !in url ==> r == url
  {
    match Cut(url, '#')
    case Some((before, _)) => before
    case None => url
  }

  /** The parameters of the query part of `url` (after its first '?' and
      before the fragment), in order; None when `url` has no query. */
  function QueryParams(url: string): Option<seq<Param>> {
    match Cut(WithoutFragment(url), '?')
    case None => None
    case Some((_, query)) =>
      var parts := Split(query, '&');
      Some(seq(|parts|, i requires 0 <= i < |parts| => ReadParam(parts[i])))
  }

  /** `key=value` as a builder writes it. */
  function Field(key: string, value: string): string {
    key + "=" + value
  }

  /** A value the query reader recovers intact: no '&' (it would start
      another parameter), no '#' (it would start the fragment) and no '%'
      (it would start an escape, which RFC 3986 percent-decoding would
      turn into another character, so on '%'-free text not percent-decoding
      is exact). A form-urlencoded reader also reads '+' as a space; that
      reader is not modelled. */
  predicate QuerySafe(value: string) {
    '&' !in value && '#' !in value && '%' !in value
  }

  /** Reading a written parameter gives back its key and value, whenever the
      key has no '='. */
  lemma ReadField(key: string, value: string)
    requires '=' !in key
    ensures ReadParam(Field(key, value)) == Param(key, value)
  {
    CutAfterFreePrefix(key, '=', value);
  }

  /** Letters, digits and the punctuation of a plain origin or key. */
  predicate PlainChar(c: char) {
    || 'a' <= c <= 'z' || 'A' <= c <= 'Z' || '0' <= c <= '9'
    || c == '.' || c == '-' || c == '/' || c == ':'
  }

  /** A string made of plain characters holds none of the delimiters the
      query reader looks for. */
  lemma PlainHasNoDelimiter(s: string)
    requires forall i :: 0 <= i < |s| ==> PlainChar(s[i])
    ensures '?' !in s && '=' !in s && QuerySafe(s)
  {
  }

  /** A parameter the query reader can find again: a safe key without
      '=', and a safe value. */
  predicate Readable(p: Param) {
    '=' !in p.key && QuerySafe(p.key) && QuerySafe(p.value)
  }

  /** A part-wise condition that neither the parts nor the separator break
      holds of the joined text. */
  lemma {:induction false} JoinAvoids(parts: seq<string>, sep: char, c: char)
    requires |parts| >= 1 && c != sep
    requires forall i :: 0 <= i < |parts| ==> c !in parts[i]
    ensures c !in Join(parts, sep)
  {
    if |parts| > 1 {
      JoinAvoids(parts[1..], sep, c);
    }
  }

  /** The query reader inverts "prefix?f1&f2&..." for fields written by
      `Field` from readable parameters, when the prefix has no '?' and no
      '#'. */
  lemma {:induction false} ReadQuery(prefix: string, fields: seq<string>, params: seq<Param>)
    requires '?' !in prefix && '#' !in prefix
    requires |fields| == |params| >= 1
    requires forall i :: 0 <= i < |params| ==> Readable(params[i])
    requires forall i :: 0 <= i < |fields| ==> fields[i] == Field(params[i].key, params[i].value)
    ensures QueryParams(prefix + "?" + Join(fields, '&')) == Some(params)
  {
    var query := Join(fields, '&');
    JoinAvoids(fields, '&', '#');
    assert prefix + "?" + query == prefix + ['?'] + query;
    assert WithoutFragment(prefix + "?" + query) == prefix + "?" + query;
    CutAfterFreePrefix(prefix, '?', query);
    SplitJoin(fields, '&');
    forall i | 0 <= i < |fields|
      ensures ReadParam(fields[i]) == params[i]
    {
      ReadField(params[i].key, params[i].value);
    }
    var parts := Split(query, '&');
    assert parts == fields;
    assert seq(|parts|, i requires 0 <= i < |parts| => ReadParam(parts[i])) == params;
  }

  /** A '#' after the first field hides everything that follows it: the
      reader sees that one field only. */
  lemma FragmentHidesRest(prefix: string, key: string, value: string, hidden: string)
    requires '?' !in prefix && '#' !in prefix
    requires Readable(Param(key, value))
    ensures QueryParams(prefix + "?" + Field(key, value) + "#" + hidden) == Some([Param(key, value)])
  {
    var query := Field(key, value);
    assert '#' !in query;
    assert prefix + "?" + query + "#" + hidden == (prefix + "?" + query) + ['#'] + hidden;
    CutAfterFreePrefix(prefix + "?" + query, '#', hidden);
    assert prefix + "?" + query == prefix + ['?'] + query;
    CutAfterFreePrefix(prefix, '?', query);
    SplitJoin([query], '&');
    ReadField(key, value);
    var parts := Split(query, '&');
    assert parts == [query];
    assert seq(|parts|, i requires 0 <= i < |parts| => ReadParam(parts[i])) == [Param(key, value)];
  }

  /** `Join` of four and of five parts, written out. */
  lemma Join4(a: string, b: string, c: string, d: string, sep: char)
    ensures Join([a, b, c, d], sep) == a + [sep] + b + [sep] + c + [sep] + d
  {
    assert [c, d][1..] == [d];
    assert Join([c, d], sep) == c + [sep] + d;
    assert [b, c, d][1..] == [c, d];
    assert Join([b, c, d], sep) == b + [sep] + (c + [sep] + d);
    assert [a, b, c, d][1..] == [b, c, d];
    assert Join([a, b, c, d], sep) == a + [sep] + (b + [sep] + (c + [sep] + d));
  }

  lemma Join5(a: string, b: string, c: string, d: string, e: string, sep: char)
    ensures Join([a, b, c, d, e], sep) == a + [sep] + b + [sep] + c + [sep] + d + [sep] + e
  {
    assert [a, b, c, d, e][1..] == [b, c, d, e];
    Join4(b, c, d, e, sep);
  }

  /** Two, three, four and five written fields joined by '&', spelled
      out. */
  lemma Fields2(k0: string, v0: string, k1: string, v1: string)
    ensures Join([Field(k0, v0), Field(k1, v1)], '&') == k0 + "=" + v0 + "&" + k1 + "=" + v1
  {
    assert [Field(k0, v0), Field(k1, v1)][1..] == [Field(k1, v1)];
  }

  lemma Fields3(k0: string, v0: string, k1: string, v1: string, k2: string, v2: string)
    ensures Join([Field(k0, v0), Field(k1, v1), Field(k2, v2)], '&')
      == k0 + "=" + v0 + "&" + k1 + "=" + v1 + "&" + k2 + "=" + v2
  {
    assert [Field(k0, v0), Field(k1, v1), Field(k2, v2)][1..] == [Field(k1, v1), Field(k2, v2)];
    Fields2(k1, v1, k2, v2);
  }

  lemma Fields4(k0: string, v0: string, k1: string, v1: string,
                k2: string, v2: string, k3: string, v3: string)
    ensures Join([Field(k0, v0), Field(k1, v1), Field(k2, v2), Field(k3, v3)], '&')
      == k0 + "=" + v0 + "&" + k1 + "=" + v1 + "&" + k2 + "=" + v2 + "&" + k3 + "=" + v3
  {
    Join4(Field(k0, v0), Field(k1, v1), Field(k2, v2), Field(k3, v3), '&');
  }

  lemma Fields5(k0: string, v0: string, k1: string, v1: string,
                k2: string, v2: string, k3: string, v3: string, k4: string, v4: string)
    ensures Join([Field(k0, v0), Field(k1, v1), Field(k2, v2), Field(k3, v3), Field(k4, v4)], '&')
      == k0 + "=" + v0 + "&" + k1 + "=" + v1 + "&" + k2 + "=" + v2 + "&" + k3 + "=" + v3
         + "&" + k4 + "=" + v4
  {
    Join5(Field(k0, v0), Field(k1, v1), Field(k2, v2), Field(k3, v3), Field(k4, v4), '&');
  }
}
