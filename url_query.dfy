/**
 * The shape of the query strings the Overleaf actions build with
 * `qs.stringify` and template literals: `key=value` fields joined by '&',
 * appended to a base URL after '?'. Values arrive already encoded (the
 * encoder is a parameter of the callers). A parser for that shape is the
 * reference the builders are checked against.
 */
module UrlQuery {
  import opened Wrappers
  import opened JsStrings

  type Pair = (string, string)

  function Field(p: Pair): string
  {
    p.0 + "=" + p.1
  }

  /** `qs.stringify` of an object whose keys need no encoding and whose values are already encoded. */
  function Query(pairs: seq<Pair>): string
  {
    if pairs == [] then ""
    else if |pairs| == 1 then Field(pairs[0])
    else Field(pairs[0]) + "&" + Query(pairs[1..])
  }

  /** `${base}?${query}` */
  function WithQuery(base: string, pairs: seq<Pair>): string
  {
    base + "?" + Query(pairs)
  }

  /** The query both Overleaf requests carry: the resource path and the UI language, encoded by `enc`. */
  function PathLangQuery(path: string, lang: string, enc: string -> string): seq<Pair>
  {
    [("path", enc(path)), ("lang", enc(lang))]
  }

  /** A pair survives the round trip: no '&' anywhere, no '=' in the key. */
  predicate Unambiguous(pairs: seq<Pair>)
  {
    forall i :: 0 <= i < |pairs| ==> '&' !in pairs[i].0 && '=' !in pairs[i].0 && '&' !in pairs[i].1
  }

  // ---------------------------------------------------------------------------
  // The parser
  // ---------------------------------------------------------------------------

  function ParsePair(f: string): Pair
  {
    match IndexOf(f, "=")
    case None => (f, "")
    case Some(i) => (f[..i], f[i + 1..])
  }

  function ParseFields(q: string): seq<Pair>
    decreases |q|
  {
    match IndexOf(q, "&")
    case None => [ParsePair(q)]
    case Some(i) => [ParsePair(q[..i])] + ParseFields(q[i + 1..])
  }

  /** The fields of a query string, in order. */
  function Params(q: string): seq<Pair>
  {
    if q == "" then [] else ParseFields(q)
  }

  /** The query part of a URL: everything after its first '?'. */
  function QueryPart(url: string): string
  {
    match IndexOf(url, "?")
    case None => ""
    case Some(i) => url[i + 1..]
  }

  // ---------------------------------------------------------------------------
  // Round trip
  // ---------------------------------------------------------------------------

  lemma IndexOfFirstChar(a: string, c: char, b: string)
    requires c !in a
    ensures IndexOf(a + [c] + b, [c]) == Some(|a|)
  {
    var s := a + [c] + b;
    assert OccursAt(s, [c], |a|);
    forall j: nat | j < |a| ensures !OccursAt(s, [c], j) {
      assert s[j..j + 1] == [a[j]];
    }
  }

  lemma IndexOfAbsentChar(a: string, c: char)
    requires c !in a
    ensures IndexOf(a, [c]) == None
  {
    forall j: nat | j + 1 <= |a| ensures !OccursAt(a, [c], j) {
      assert a[j..j + 1] == [a[j]];
    }
  }

  lemma ParsePairField(p: Pair)
    requires '=' !in p.0
    ensures ParsePair(Field(p)) == p
  {
    IndexOfFirstChar(p.0, '=', p.1);
    assert Field(p) == p.0 + ['='] + p.1;
    assert Field(p)[..|p.0|] == p.0;
    assert Field(p)[|p.0| + 1..] == p.1;
  }

  lemma FieldHasNoAmpersand(p: Pair)
    requires '&' !in p.0 && '&' !in p.1
    ensures '&' !in Field(p)
  {
    assert Field(p) == p.0 + ['='] + p.1;
  }

  lemma ParseFieldsCons(f: string, rest: string)
    requires '&' !in f
    ensures ParseFields(f + "&" + rest) == [ParsePair(f)] + ParseFields(rest)
  {
    var q := f + ['&'] + rest;
    IndexOfFirstChar(f, '&', rest);
    assert q[..|f|] == f;
    assert q[|f| + 1..] == rest;
  }

  lemma ParseFieldsSingle(f: string)
    requires '&' !in f
    ensures ParseFields(f) == [ParsePair(f)]
  {
    IndexOfAbsentChar(f, '&');
  }

  lemma {:induction false} ParseFieldsQuery(pairs: seq<Pair>)
    requires |pairs| >= 1 && Unambiguous(pairs)
    ensures ParseFields(Query(pairs)) == pairs
  {
    var f := Field(pairs[0]);
    FieldHasNoAmpersand(pairs[0]);
    ParsePairField(pairs[0]);
    if |pairs| == 1 {
      ParseFieldsSingle(f);
    } else {
      var tail := pairs[1..];
      assert Unambiguous(tail) by {
        forall i | 0 <= i < |tail| ensures '&' !in tail[i].0 && '=' !in tail[i].0 && '&' !in tail[i].1 {
          assert tail[i] == pairs[i + 1];
        }
      }
      ParseFieldsCons(f, Query(tail));
      ParseFieldsQuery(tail);
      assert pairs == [pairs[0]] + tail;
    }
  }

  /** Parsing what `Query` builds gives back the pairs, in order. */
  lemma QueryRoundTrip(pairs: seq<Pair>)
    requires Unambiguous(pairs)
    ensures Params(Query(pairs)) == pairs
  {
    if pairs != [] {
      ParseFieldsQuery(pairs);
      assert Query(pairs) != "" by {
        if |pairs| > 1 {
          assert |Query(pairs)| >= |Field(pairs[0])| + 1;
        }
      }
    }
  }

  /** The query of `WithQuery(base, pairs)` is what follows the '?'. */
  lemma QueryPartOfWithQuery(base: string, pairs: seq<Pair>)
    requires '?' !in base
    ensures QueryPart(WithQuery(base, pairs)) == Query(pairs)
  {
    IndexOfFirstChar(base, '?', Query(pairs));
    assert WithQuery(base, pairs) == base + ['?'] + Query(pairs);
    assert (base + ['?'] + Query(pairs))[|base| + 1..] == Query(pairs);
  }

  /** Appending `&key=value` to a non-empty query adds one pair at the end. */
  lemma {:induction false} QueryAppend(pairs: seq<Pair>, p: Pair)
    requires pairs != []
    ensures Query(pairs + [p]) == Query(pairs) + "&" + Field(p)
  {
    if |pairs| == 1 {
      assert (pairs + [p])[1..] == [p];
    } else {
      QueryAppend(pairs[1..], p);
      assert (pairs + [p])[1..] == pairs[1..] + [p];
    }
  }

  /**
   * A URL built on a '?'-free base carries exactly the path and language
   * fields, in that order, provided the encoder leaves no '&' in them.
   */
  lemma PathLangUrlFields(base: string, path: string, lang: string, enc: string -> string)
    requires '?' !in base && '&' !in enc(path) && '&' !in enc(lang)
    ensures Params(QueryPart(WithQuery(base, PathLangQuery(path, lang, enc)))) == PathLangQuery(path, lang, enc)
  {
    PathLangUnambiguous(path, lang, enc);
    QueryPartOfWithQuery(base, PathLangQuery(path, lang, enc));
    QueryRoundTrip(PathLangQuery(path, lang, enc));
  }

  lemma PathLangUnambiguous(path: string, lang: string, enc: string -> string)
    requires '&' !in enc(path) && '&' !in enc(lang)
    ensures Unambiguous(PathLangQuery(path, lang, enc))
  {
    var q := PathLangQuery(path, lang, enc);
    assert q[0] == ("path", enc(path)) && q[1] == ("lang", enc(lang));
    assert '&' !in "path" && '=' !in "path" && '&' !in "lang" && '=' !in "lang";
  }
}
