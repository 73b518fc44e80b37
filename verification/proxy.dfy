/**
 * The development-server proxy mapper of build/proxy.ts: a list of
 * (prefix, target) rules becomes a dictionary from prefix to proxy options.
 */
module Proxy {
  import opened Wrappers

  /** One rule of the proxy list: the request-path prefix and the origin it forwards to. */
  type Rule = (string, string)

  /**
   * The options object built for one prefix. The `rewrite` closure is represented
   * by the prefix it captured (`rewriteFrom`); applying it is `Rewrite(rewriteFrom, path)`.
   * `secure` is `None` when the object has no `secure` field at all.
   */
  datatype ProxyConfig = ProxyConfig(
    target: string,
    changeOrigin: bool,
    ws: bool,
    rewriteFrom: string,
    secure: Option<bool>)

  predicate StartsWith(s: string, prefix: string) {
    |prefix| <= |s| && s[..|prefix|] == prefix
  }

  /** The literal, case-sensitive pattern `^https:\/\/`. */
  const HttpsScheme: string := "https://"

  predicate IsHttps(target: string) {
    StartsWith(target, HttpsScheme)
  }

  /**
   * `path.replace(new RegExp("^" + prefix), "")` for a prefix without regular-expression
   * metacharacters: one leading occurrence of `prefix` is removed, if there is one.
   */
  function Rewrite(prefix: string, path: string): (r: string)
    ensures StartsWith(path, prefix) ==> prefix + r == path
    ensures !StartsWith(path, prefix) ==> r == path
  {
    if StartsWith(path, prefix) then path[|prefix|..] else path
  }

  /** The options object that one rule produces. */
  function Entry(prefix: string, target: string): ProxyConfig {
    ProxyConfig(target, true, true, prefix, if IsHttps(target) then Some(false) else None)
  }

  function Prefixes(rules: seq<Rule>): set<string> {
    set i | 0 <= i < |rules| :: rules[i].0
  }

  /** The dictionary after all of `rules` have been assigned in order. */
  function Build(rules: seq<Rule>): map<string, ProxyConfig>
    decreases |rules|
  {
    if rules == [] then map[]
    else
      var last := rules[|rules| - 1];
      Build(rules[..|rules| - 1])[last.0 := Entry(last.0, last.1)]
  }

  /** `createProxy(list = [])`: one assignment into the dictionary per rule, in list order. */
  method CreateProxy(list: Option<seq<Rule>>) returns (ret: map<string, ProxyConfig>)
    ensures ret == Build(list.GetOr([]))
    ensures ret.Keys == Prefixes(list.GetOr([]))
  {
    var rules := list.GetOr([]);
    ret := map[];
    for i := 0 to |rules|
      invariant ret == Build(rules[..i])
    {
      var (prefix, target) := rules[i];
      ret := ret[prefix := Entry(prefix, target)];
      assert rules[..i + 1][..i] == rules[..i];
    }
    assert rules[..|rules|] == rules;
    BuildKeys(rules);
  }

  /** The dictionary has exactly one key per distinct prefix of the list. */
  lemma {:induction false} BuildKeys(rules: seq<Rule>)
    ensures Build(rules).Keys == Prefixes(rules)
    decreases |rules|
  {
    if rules != [] {
      var init := rules[..|rules| - 1];
      BuildKeys(init);
      assert Prefixes(rules) == Prefixes(init) + {rules[|rules| - 1].0} by {
        forall p | p in Prefixes(rules) ensures p in Prefixes(init) + {rules[|rules| - 1].0} {
          var i :| 0 <= i < |rules| && rules[i].0 == p;
          if i < |rules| - 1 { assert init[i] == rules[i]; }
        }
        forall p | p in Prefixes(init) ensures p in Prefixes(rules) {
          var i :| 0 <= i < |init| && init[i].0 == p;
          assert rules[i] == init[i];
        }
      }
    }
  }

  /** A prefix's entry is built from the rule of its last occurrence in the list. */
  lemma {:induction false} BuildLastOccurrence(rules: seq<Rule>, i: int)
    requires 0 <= i < |rules|
    requires forall j :: i < j < |rules| ==> rules[j].0 != rules[i].0
    ensures rules[i].0 in Build(rules)
    ensures Build(rules)[rules[i].0] == Entry(rules[i].0, rules[i].1)
    decreases |rules|
  {
    if i < |rules| - 1 {
      var init := rules[..|rules| - 1];
      assert init[i] == rules[i];
      forall j | i < j < |init| ensures init[j].0 != init[i].0 {
        assert init[j] == rules[j];
      }
      BuildLastOccurrence(init, i);
    }
  }

  /**
   * Every entry targets a target listed for its own prefix, always has `changeOrigin`
   * and `ws`, rewrites with its own prefix, and has `secure: false` exactly when the
   * target starts with the literal `https://` (and no `secure` field otherwise).
   */
  lemma {:induction false} BuildEntryShape(rules: seq<Rule>, p: string)
    requires p in Build(rules)
    ensures exists i :: 0 <= i < |rules| && rules[i] == (p, Build(rules)[p].target)
    ensures Build(rules)[p].changeOrigin && Build(rules)[p].ws
    ensures Build(rules)[p].rewriteFrom == p
    ensures Build(rules)[p].secure == Some(false) <==> IsHttps(Build(rules)[p].target)
    ensures Build(rules)[p].secure != Some(false) ==> Build(rules)[p].secure == None
    decreases |rules|
  {
    var init := rules[..|rules| - 1];
    var last := rules[|rules| - 1];
    if last.0 != p {
      BuildEntryShape(init, p);
      var i :| 0 <= i < |init| && init[i] == (p, Build(init)[p].target);
      assert rules[i] == init[i];
    }
  }

  /** Rules appended later for other prefixes never alter the entry for `p`. */
  lemma {:induction false} BuildLaterRulesKeepOthers(rules: seq<Rule>, later: seq<Rule>, p: string)
    requires forall j :: 0 <= j < |later| ==> later[j].0 != p
    ensures p in Build(rules + later) <==> p in Build(rules)
    ensures p in Build(rules) ==> Build(rules + later)[p] == Build(rules)[p]
    decreases |later|
  {
    if later != [] {
      var init := later[..|later| - 1];
      assert (rules + later)[..|rules + later| - 1] == rules + init;
      assert (rules + later)[|rules + later| - 1] == later[|later| - 1];
      BuildLaterRulesKeepOthers(rules, init, p);
    } else {
      assert rules + later == rules;
    }
  }

  /** An absent or empty list gives an empty dictionary. */
  lemma EmptyListEmptyProxy(list: Option<seq<Rule>>)
    requires list == None || list == Some([])
    ensures Build(list.GetOr([])) == map[]
  {
  }

  /** The rewrite removes at most one leading occurrence of the prefix. */
  lemma RewriteStripsOnce(prefix: string, rest: string)
    ensures Rewrite(prefix, prefix + rest) == rest
    ensures Rewrite(prefix, prefix + prefix + rest) == prefix + rest
  {
    assert (prefix + rest)[..|prefix|] == prefix;
    assert (prefix + prefix + rest)[..|prefix|] == prefix;
    assert (prefix + prefix + rest)[|prefix|..] == prefix + rest;
  }

  /** A single https rule, and the case-sensitivity of the scheme test. */
  lemma HttpsBackendExample()
    ensures Build([("/api", "https://backend.example.com")])
         == map["/api" := ProxyConfig("https://backend.example.com", true, true, "/api", Some(false))]
    ensures Rewrite("/api", "/api/users") == "/users"
    ensures Rewrite("/api", "/api/api/x") == "/api/x"
    ensures Rewrite("/api", "/users") == "/users"
    ensures !IsHttps("HTTPS://backend.example.com")
    ensures !IsHttps("http://backend.example.com")
  {
    assert IsHttps("https://backend.example.com");
    RewriteStripsOnce("/api", "/users");
    RewriteStripsOnce("/api", "/x");
    assert "/api" + "/users" == "/api/users";
    assert "/api" + "/api" + "/x" == "/api/api/x";
    assert "/api" + "/x" == "/api/x";
    assert "/users"[..4][1] != "/api"[1];
    assert "HTTPS://backend.example.com"[..8][0] != HttpsScheme[0];
    assert "http://backend.example.com"[..8][4] != HttpsScheme[4];
  }
}
