/** The request builder of a sport client: parameter merge, query string and
    target URL. Nothing here is URL-encoded; keys and rendered values are
    concatenated as they are. */
module Request {
  import opened Wrappers
  import opened Assoc
  import opened Json

  /** A query-parameter object (`Record<string, string | number>`). */
  type Params = Assoc<Json>

  /** `{ ...call, ...defaults }`: the call's parameters first, then the
      client defaults, so a default overwrites a call parameter of the same
      name (keeping that parameter's position) and the other defaults follow
      in their own order. */
  function Merge(call: Params, defaults: Params): (r: Params)
    requires UniqueKeys(call) && UniqueKeys(defaults)
    ensures UniqueKeys(r)
    ensures Keys(r) == Keys(call) + NewKeys(Keys(defaults), Keys(call))
    ensures forall k :: Lookup(r, k) == if k in Keys(defaults) then Lookup(defaults, k) else Lookup(call, k)
    ensures ToMap(r) == ToMap(call) + ToMap(defaults)
  {
    AssignFresh([], call);
    assert [] + call == call;
    AssignUnique(call, defaults);
    AssignKeys(call, defaults);
    AssignIsMapUnion(call, defaults);
    var r := Assign(call, defaults);
    assert forall k :: Lookup(r, k) == if k in Keys(defaults) then Lookup(defaults, k) else Lookup(call, k) by {
      forall k ensures Lookup(r, k) == if k in Keys(defaults) then Lookup(defaults, k) else Lookup(call, k) {
        AssignLookup(call, defaults, k);
      }
    }
    Assign(Assign([], call), defaults)
  }

  /** Without client defaults the merge is the call's parameters, unchanged. */
  lemma MergeNoDefaults(call: Params)
    requires UniqueKeys(call)
    ensures Merge(call, []) == call
  {
    AssignFresh([], call);
    assert [] + call == call;
  }

  /** Call `{a: 1}` with defaults `{a: 2, b: 3}` gives `{a: 2, b: 3}`. */
  lemma MergeExample()
    ensures Merge([("a", JNum(1))], [("a", JNum(2)), ("b", JNum(3))]) == [("a", JNum(2)), ("b", JNum(3))]
  {
    var call, defaults := [("a", JNum(1))], [("a", JNum(2)), ("b", JNum(3))];
    assert Assign([], call) == call;
    assert Put(call, "a", JNum(2)) == [("a", JNum(2))];
    assert Keys([("a", JNum(2))]) == ["a"];
    assert Put([("a", JNum(2))], "b", JNum(3)) == [("a", JNum(2)), ("b", JNum(3))];
    assert defaults[1..][1..] == [];
  }

  /** One `key=value` pair of the query string. */
  function Pair(k: string, v: Json): string
  {
    k + "=" + Render(v)
  }

  function Pairs(p: Params): seq<string>
  {
    seq(|p|, i requires 0 <= i < |p| => Pair(p[i].0, p[i].1))
  }

  /** `xs.join(sep)`. */
  function Join(sep: char, xs: seq<string>): string
  {
    if |xs| == 0 then ""
    else if |xs| == 1 then xs[0]
    else xs[0] + [sep] + Join(sep, xs[1..])
  }

  /** `Object.keys(p).map(key => `${key}=${p[key]}`).join("&")`. */
  function QueryString(p: Params): (q: string)
    ensures q == "" <==> |p| == 0
  {
    var ps := Pairs(p);
    if |p| == 0 then Join('&', ps)
    else
      assert ps[0] == p[0].0 + "=" + Render(p[0].1);
      assert '=' in ps[0];
      JoinStartsWith('&', ps);
      Join('&', ps)
  }

  lemma JoinStartsWith(sep: char, xs: seq<string>)
    requires |xs| > 0
    ensures |Join(sep, xs)| >= |xs[0]| && Join(sep, xs)[..|xs[0]|] == xs[0]
  {
    if |xs| > 1 {
      assert (xs[0] + [sep] + Join(sep, xs[1..]))[..|xs[0]|] == xs[0];
    }
  }

  /** `s.split(c)`. */
  function Split(s: string, c: char): (parts: seq<string>)
    ensures |parts| >= 1
  {
    if |s| == 0 then [""]
    else
      var rest := Split(s[1..], c);
      if s[0] == c then [""] + rest else [[s[0]] + rest[0]] + rest[1..]
  }

  lemma {:induction false} SplitNoSeparator(s: string, c: char)
    requires c !in s
    ensures Split(s, c) == [s]
  {
    if |s| > 0 {
      SplitNoSeparator(s[1..], c);
      assert [s[0]] + s[1..] == s;
    }
  }

  lemma {:induction false} SplitAtSeparator(x: string, c: char, y: string)
    requires c !in x
    ensures Split(x + [c] + y, c) == [x] + Split(y, c)
  {
    var s := x + [c] + y;
    if |x| == 0 {
      assert s[1..] == y;
    } else {
      assert s[1..] == x[1..] + [c] + y;
      SplitAtSeparator(x[1..], c, y);
      assert [x[0]] + x[1..] == x;
    }
  }

  /** Splitting a join on a separator that none of the parts contains gives
      the parts back. */
  lemma {:induction false} SplitJoin(c: char, xs: seq<string>)
    requires |xs| > 0
    requires forall i :: 0 <= i < |xs| ==> c !in xs[i]
    ensures Split(Join(c, xs), c) == xs
  {
    if |xs| == 1 {
      SplitNoSeparator(xs[0], c);
    } else {
      SplitJoin(c, xs[1..]);
      SplitAtSeparator(xs[0], c, Join(c, xs[1..]));
      assert [xs[0]] + xs[1..] == xs;
    }
  }

  lemma {:induction false} JoinSnoc(sep: char, xs: seq<string>, y: string)
    requires |xs| > 0
    ensures Join(sep, xs + [y]) == Join(sep, xs) + [sep] + y
  {
    if |xs| == 1 {
      assert xs + [y] == [xs[0], y];
    } else {
      assert (xs + [y])[1..] == xs[1..] + [y];
      JoinSnoc(sep, xs[1..], y);
    }
  }

  /** Appending a parameter appends its pair to the query string. */
  lemma QueryStringSnoc(p: Params, k: string, v: Json)
    ensures QueryString(p + [(k, v)]) == (if |p| == 0 then "" else QueryString(p) + "&") + Pair(k, v)
  {
    assert Pairs(p + [(k, v)]) == Pairs(p) + [Pair(k, v)];
    if |p| > 0 {
      JoinSnoc('&', Pairs(p), Pair(k, v));
    } else {
      assert Pairs(p + [(k, v)]) == [Pair(k, v)];
    }
  }

  /** Cuts `s` at the first `c`; `None` when `c` does not occur. */
  function Cut(s: string, c: char): (r: Option<(string, string)>)
    ensures r.None? <==> c !in s
    ensures r.Some? ==> s == r.value.0 + [c] + r.value.1 && c !in r.value.0
  {
    if |s| == 0 then None
    else if s[0] == c then Some(("", s[1..]))
    else
      match Cut(s[1..], c)
      case None => None
      case Some((a, b)) => Some(([s[0]] + a, b))
  }

  lemma {:induction false} CutFirst(x: string, c: char, y: string)
    requires c !in x
    ensures Cut(x + [c] + y, c) == Some((x, y))
  {
    var s := x + [c] + y;
    if |x| == 0 {
      assert s[1..] == y;
    } else {
      assert s[1..] == x[1..] + [c] + y;
      CutFirst(x[1..], c, y);
      assert [x[0]] + x[1..] == x;
    }
  }

  /** Reads one `key=value` pair back, cutting at the first `=`. */
  function ParsePair(s: string): (string, string)
  {
    match Cut(s, '=')
    case None => (s, "")
    case Some(kv) => kv
  }

  /** Reads a query string back into its (key, text) pairs. */
  function ParseQuery(q: string): seq<(string, string)>
  {
    if q == "" then []
    else
      var parts := Split(q, '&');
      seq(|parts|, i requires 0 <= i < |parts| => ParsePair(parts[i]))
  }

  /** The (key, rendered value) pairs a parameter object stands for. */
  function RenderedPairs(p: Params): seq<(string, string)>
  {
    seq(|p|, i requires 0 <= i < |p| => (p[i].0, Render(p[i].1)))
  }

  /** The query string can be read back when no key holds `&` or `=` and no
      rendered value holds `&`; since nothing is encoded, that is the
      condition for the query to mean what the parameters say. */
  lemma QueryStringRoundTrip(p: Params)
    requires forall i :: 0 <= i < |p| ==> '&' !in p[i].0 && '=' !in p[i].0 && '&' !in Render(p[i].1)
    ensures ParseQuery(QueryString(p)) == RenderedPairs(p)
  {
    var ps := Pairs(p);
    if |p| > 0 {
      forall i | 0 <= i < |ps| ensures '&' !in ps[i] {
        assert ps[i] == p[i].0 + "=" + Render(p[i].1);
      }
      SplitJoin('&', ps);
      forall i | 0 <= i < |p| ensures ParsePair(ps[i]) == (p[i].0, Render(p[i].1)) {
        CutFirst(p[i].0, '=', Render(p[i].1));
        assert ps[i] == p[i].0 + ['='] + Render(p[i].1);
      }
    }
  }

  /** Because nothing is encoded, a value holding `&` and `=` forges extra
      parameters: two different parameter objects give one query string. */
  lemma QueryStringNotInjective()
    ensures QueryString([("a", JStr("1&b=2"))]) == QueryString([("a", JStr("1")), ("b", JStr("2"))])
  {
    var one, two := [("a", JStr("1&b=2"))], [("a", JStr("1")), ("b", JStr("2"))];
    assert Pair("a", JStr("1&b=2")) == "a=1&b=2";
    assert Pair("a", JStr("1")) == "a=1" && Pair("b", JStr("2")) == "b=2";
    assert Pairs(one) == ["a=1&b=2"];
    assert Pairs(two) == ["a=1", "b=2"];
    assert Join('&', ["a=1", "b=2"]) == "a=1" + "&" + Join('&', ["b=2"]);
  }

  /** What an array element contributes to the array's text: `null` and
      `undefined` contribute nothing. */
  function ElemText(x: Json): string
  {
    if x.JNull? || x.JUndefined? then "" else Render(x)
  }

  function ElemTexts(xs: seq<Json>): seq<string>
  {
    seq(|xs|, i requires 0 <= i < |xs| => ElemText(xs[i]))
  }

  /** An array renders as `Array.prototype.join(",")` of its elements' texts. */
  lemma {:induction false} RenderArrayIsJoin(xs: seq<Json>)
    ensures Render(JArr(xs)) == Join(',', ElemTexts(xs))
  {
    if |xs| > 1 {
      RenderArrayIsJoin(xs[1..]);
      assert ElemTexts(xs)[1..] == ElemTexts(xs[1..]);
    }
  }

  function Numbers(ns: seq<int>): seq<Json>
  {
    seq(|ns|, i requires 0 <= i < |ns| => JNum(ns[i]))
  }

  /** A non-empty array of numbers, rendered and split on `,`, gives back
      one piece per number, each reading back as that number. */
  lemma RenderNumbersRoundTrip(ns: seq<int>)
    requires |ns| > 0
    ensures var parts := Split(Render(JArr(Numbers(ns))), ',');
      |parts| == |ns| && forall i :: 0 <= i < |ns| ==> ParseInt(parts[i]) == ns[i]
  {
    var xs := Numbers(ns);
    var texts := ElemTexts(xs);
    RenderArrayIsJoin(xs);
    forall i | 0 <= i < |texts| ensures ',' !in texts[i] {
      NumberTextNoComma(ns[i]);
    }
    SplitJoin(',', texts);
    forall i | 0 <= i < |ns| ensures ParseInt(texts[i]) == ns[i] {
      RenderNumberReadsBack(ns[i]);
    }
  }

  /** `https://${host}/${path}?${query}`. */
  function Url(host: string, path: string, query: string): string
  {
    "https://" + host + "/" + path + "?" + query
  }

  lemma UrlPieces(host: string, path: string, query: string)
    ensures Url(host, path, query) == ("https://" + host) + ("/" + path + "?") + query
  {
    SeqAssoc("https://" + host, "/" + path, "?");
    SeqAssoc("https://" + host, "/", path);
  }

  /** Splits a URL into host, path and query. */
  function ParseUrl(url: string): Option<(string, string, string)>
  {
    if |url| < 8 || url[..8] != "https://" then None
    else
      match Cut(url[8..], '/')
      case None => None
      case Some((host, rest)) =>
        match Cut(rest, '?')
        case None => None
        case Some((path, query)) => Some((host, path, query))
  }

  /** Host, path and query are recoverable from the URL when the host holds
      no `/` and the path no `?`. */
  lemma UrlRoundTrip(host: string, path: string, query: string)
    ensures '/' !in host && '?' !in path ==> ParseUrl(Url(host, path, query)) == Some((host, path, query))
  {
    if '/' !in host && '?' !in path {
      var url := Url(host, path, query);
      assert url[..8] == "https://";
      assert url[8..] == host + ['/'] + (path + "?" + query);
      CutFirst(host, '/', path + "?" + query);
      CutFirst(path, '?', query);
      assert path + "?" + query == path + ['?'] + query;
    }
  }
}
