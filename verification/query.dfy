/** `new URLSearchParams(location.search).get(name)`, as the password-reset
    and email-confirmation pages use it to read their link parameters: a
    leading `?` is dropped, the rest is cut at every `&`, empty pieces are
    skipped, and each piece is split at its first `=` into a name and a value
    (a piece without `=` has the empty value). `get` returns the value of the
    first pair with that name. */
module Query {
  import opened Wrappers
  import opened Seqs
  import opened Text

  type Pair = (string, string)

  predicate IsEqualsSign(c: char) { c == '=' }

  predicate NonEmpty(s: string) { |s| > 0 }

  /** One `name=value` piece, split at its first `=`. */
  function ParsePair(piece: string): (r: Pair)
    ensures '=' !in r.0
    ensures '=' in piece ==> r.0 + "=" + r.1 == piece
    ensures '=' !in piece ==> r == (piece, "")
  {
    match FindIndex(piece, IsEqualsSign)
    case None => (piece, "")
    case Some(i) =>
      assert piece[..i] + "=" + piece[i + 1..] == piece;
      assert forall j :: 0 <= j < i ==> piece[..i][j] == piece[j];
      (piece[..i], piece[i + 1..])
  }

  /** The name/value pairs of a query string, in order. */
  function Params(search: string): (r: seq<Pair>)
    ensures forall i :: 0 <= i < |r| ==> '=' !in r[i].0
  {
    var body := if |search| > 0 && search[0] == '?' then search[1..] else search;
    Map(Filter(Split(body, '&'), NonEmpty), ParsePair)
  }

  /** `params.get(name)`, with `None` for `null`: the value of the first pair
      carrying `name`. */
  function Get(search: string, name: string): (r: Option<string>)
    ensures var ps := Params(search);
            r.None? <==> forall i :: 0 <= i < |ps| ==> ps[i].0 != name
    ensures var ps := Params(search);
            r.Some? ==> exists i :: 0 <= i < |ps| && ps[i] == (name, r.value)
                                  && forall j :: 0 <= j < i ==> ps[j].0 != name
  {
    var ps := Params(search);
    match FindIndex(ps, (p: Pair) => p.0 == name)
    case None => None
    case Some(i) => Some(ps[i].1)
  }

  // ----- the query strings a link carries -----

  /** A pair that survives being written into a query string: its name holds
      neither `=` nor `&`, its value no `&`. */
  predicate Writable(p: Pair)
  {
    '=' !in p.0 && '&' !in p.0 && '&' !in p.1
  }

  function RenderPair(p: Pair): string
  {
    p.0 + "=" + p.1
  }

  /** The query string `?n1=v1&n2=v2...` of a link. */
  function Render(pairs: seq<Pair>): string
  {
    "?" + Join(Map(pairs, RenderPair), "&")
  }

  /** A piece is read back as the pair it was written from. */
  lemma ParseRenderedPair(p: Pair)
    requires '=' !in p.0
    ensures ParsePair(RenderPair(p)) == p
  {
    var piece := RenderPair(p);
    assert piece[|p.0|] == '=';
    var i := FindIndex(piece, IsEqualsSign);
    assert i.Some?;
    assert forall j :: 0 <= j < |p.0| ==> piece[j] == p.0[j];
    assert i.value == |p.0|;
    assert piece[..|p.0|] == p.0;
    assert piece[|p.0| + 1..] == p.1;
  }

  /** Parsing a written query string gives back exactly its pairs. */
  lemma ParamsRender(pairs: seq<Pair>)
    requires forall i :: 0 <= i < |pairs| ==> Writable(pairs[i])
    ensures Params(Render(pairs)) == pairs
  {
    var pieces := Map(pairs, RenderPair);
    var body := Join(pieces, "&");
    assert Render(pairs)[1..] == body;
    if |pairs| == 0 {
      assert Split(body, '&') == [""];
    } else {
      forall i | 0 <= i < |pieces| ensures '&' !in pieces[i] && NonEmpty(pieces[i]) {
        assert pieces[i] == pairs[i].0 + "=" + pairs[i].1;
      }
      SplitJoin(pieces, '&');
      FilterKeepsAll(pieces, NonEmpty);
      forall i | 0 <= i < |pairs| ensures ParsePair(pieces[i]) == pairs[i] {
        ParseRenderedPair(pairs[i]);
      }
    }
  }

  /** A written link yields, for each name, the value of its first pair. */
  lemma GetRendered(pairs: seq<Pair>, i: nat)
    requires forall k :: 0 <= k < |pairs| ==> Writable(pairs[k])
    requires i < |pairs|
    requires forall j :: 0 <= j < i ==> pairs[j].0 != pairs[i].0
    ensures Get(Render(pairs), pairs[i].0) == Some(pairs[i].1)
  {
    ParamsRender(pairs);
  }

  /** A name no pair of the link carries reads as `null`. */
  lemma GetRenderedAbsent(pairs: seq<Pair>, name: string)
    requires forall k :: 0 <= k < |pairs| ==> Writable(pairs[k])
    requires forall k :: 0 <= k < |pairs| ==> pairs[k].0 != name
    ensures Get(Render(pairs), name).None?
  {
    ParamsRender(pairs);
  }
}
