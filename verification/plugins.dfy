/**
 * The bundler plugin list of build/plugins.ts: the compression plugins chosen by a
 * comma-separated environment setting, placed in a fixed seven-slot list.
 * Third-party plugin objects are opaque; only the arguments this file passes are kept.
 */
module Plugins {
  import opened Wrappers

  datatype Plugin =
    | Compression(ext: string, algorithm: string, deleteOriginFile: bool)
    | Html(title: string)
    | Other(name: string)

  /** One element of the returned array: a plugin, a nested plugin array, or a falsy value. */
  datatype Slot = One(plugin: Plugin) | Many(plugins: seq<Plugin>) | Falsy

  /** The environment keys the plugin list reads. */
  datatype ViteEnv = ViteEnv(
    appTitle: string,
    report: bool,
    buildCompress: Option<string>,
    deleteOriginFile: bool)

  /** `s.split(",")`: the maximal comma-free pieces of `s`, empty ones included. */
  function Split(s: string): (r: seq<string>)
    ensures |r| >= 1
    decreases |s|
  {
    if s == [] then [""]
    else
      var rest := Split(s[1..]);
      if s[0] == ',' then [""] + rest
      else [[s[0]] + rest[0]] + rest[1..]
  }

  /** `tokens.join(",")`, the inverse of `Split`. */
  function Join(tokens: seq<string>): string
    requires |tokens| >= 1
    decreases |tokens|
  {
    if |tokens| == 1 then tokens[0] else tokens[0] + "," + Join(tokens[1..])
  }

  /** Splitting and joining again gives the string back, and no piece holds a comma. */
  lemma {:induction false} SplitJoin(s: string)
    ensures Join(Split(s)) == s
    ensures forall k :: 0 <= k < |Split(s)| ==> ',' !in Split(s)[k]
    decreases |s|
  {
    if s != [] {
      var rest := Split(s[1..]);
      SplitJoin(s[1..]);
      if s[0] == ',' {
        assert Split(s)[1..] == rest;
        assert s == "," + s[1..];
      } else {
        var head := [s[0]] + rest[0];
        assert Split(s) == [head] + rest[1..];
        if |rest| == 1 {
          assert s == [s[0]] + s[1..];
        } else {
          assert Split(s)[1..] == rest[1..];
          assert Join(rest) == rest[0] + "," + Join(rest[1..]);
          assert s == [s[0]] + s[1..];
        }
        forall k | 0 <= k < |Split(s)| ensures ',' !in Split(s)[k] {
          if k > 0 { assert Split(s)[k] == rest[k]; }
        }
      }
    }
  }

  /** A comma-free head is glued onto the first piece of what follows it. */
  lemma {:induction false} SplitCommaFreeHead(head: string, tail: string)
    requires ',' !in head
    ensures Split(head + tail) == [head + Split(tail)[0]] + Split(tail)[1..]
    decreases |head|
  {
    if head != [] {
      SplitCommaFreeHead(head[1..], tail);
      assert (head + tail)[1..] == head[1..] + tail;
      assert [head[0]] + (head[1..] + Split(tail)[0]) == head + Split(tail)[0];
    } else {
      assert head + tail == tail;
      assert head + Split(tail)[0] == Split(tail)[0];
      assert Split(tail) == [Split(tail)[0]] + Split(tail)[1..];
    }
  }

  /** A string without a comma splits into itself alone. */
  lemma SplitCommaFree(s: string)
    requires ',' !in s
    ensures Split(s) == [s]
  {
    SplitCommaFreeHead(s, "");
    assert s + "" == s;
  }

  /** Joining comma-free pieces and splitting again gives the pieces back. */
  lemma {:induction false} JoinSplit(tokens: seq<string>)
    requires |tokens| >= 1
    requires forall k :: 0 <= k < |tokens| ==> ',' !in tokens[k]
    ensures Split(Join(tokens)) == tokens
    decreases |tokens|
  {
    if |tokens| == 1 {
      SplitCommaFree(tokens[0]);
    } else {
      var rest := Join(tokens[1..]);
      JoinSplit(tokens[1..]);
      assert Split("," + rest) == [""] + Split(rest);
      SplitCommaFreeHead(tokens[0], "," + rest);
      assert tokens[0] + "," + rest == tokens[0] + ("," + rest);
      assert tokens[0] + "" == tokens[0];
    }
  }

  function Gzip(deleteOriginFile: bool): Plugin {
    Compression(".gz", "gzip", deleteOriginFile)
  }

  function Brotli(deleteOriginFile: bool): Plugin {
    Compression(".br", "brotliCompress", deleteOriginFile)
  }

  /** The tokens of `VITE_BUILD_COMPRESS`, which defaults to `"none"` when unset. */
  function CompressTokens(env: ViteEnv): seq<string> {
    Split(env.buildCompress.GetOr("none"))
  }

  /** The plugin array `createCompression` returns. */
  function CompressionPlugins(env: ViteEnv): seq<Plugin> {
    var tokens := CompressTokens(env);
    (if "gzip" in tokens then [Gzip(env.deleteOriginFile)] else [])
      + (if "brotli" in tokens then [Brotli(env.deleteOriginFile)] else [])
  }

  /** `createCompression`: an empty array, then one conditional push per known algorithm. */
  method CreateCompression(env: ViteEnv) returns (plugins: seq<Plugin>)
    ensures plugins == CompressionPlugins(env)
  {
    var compressList := Split(env.buildCompress.GetOr("none"));
    plugins := [];
    if "gzip" in compressList {
      plugins := plugins + [Gzip(env.deleteOriginFile)];
    }
    if "brotli" in compressList {
      plugins := plugins + [Brotli(env.deleteOriginFile)];
    }
  }

  /**
   * A gzip descriptor is present iff `gzip` is an exact token, a brotli descriptor iff
   * `brotli` is; nothing else is ever added, each at most once, gzip first, and both
   * carry the configured delete-original flag.
   */
  lemma CompressionSelection(env: ViteEnv)
    ensures Gzip(env.deleteOriginFile) in CompressionPlugins(env) <==> "gzip" in CompressTokens(env)
    ensures Brotli(env.deleteOriginFile) in CompressionPlugins(env) <==> "brotli" in CompressTokens(env)
    ensures |CompressionPlugins(env)| <= 2
    ensures forall p :: p in CompressionPlugins(env) ==>
              p.Compression? && p.deleteOriginFile == env.deleteOriginFile
    ensures forall p :: p in CompressionPlugins(env) ==>
              p == Gzip(env.deleteOriginFile) || p == Brotli(env.deleteOriginFile)
    ensures |CompressionPlugins(env)| == 2 ==>
              CompressionPlugins(env) == [Gzip(env.deleteOriginFile), Brotli(env.deleteOriginFile)]
  {
  }

  /** With `VITE_BUILD_COMPRESS` unset the default `"none"` selects nothing. */
  lemma UnsetCompressSelectsNothing(env: ViteEnv)
    requires env.buildCompress == None
    ensures CompressionPlugins(env) == []
  {
    SplitCommaFree("none");
  }

  /** Tokens are matched exactly: padded or unknown tokens add nothing. */
  lemma InexactTokensIgnored(env: ViteEnv)
    requires env.buildCompress == Some(" gzip,brotli ,zstd")
    ensures CompressionPlugins(env) == []
  {
    JoinSplit([" gzip", "brotli ", "zstd"]);
    assert Join([" gzip", "brotli ", "zstd"]) == " gzip,brotli ,zstd";
  }

  /** `"gzip,brotli"` selects exactly the two descriptors, in that order. */
  lemma GzipBrotliExample(env: ViteEnv)
    requires env.buildCompress == Some("gzip,brotli") && env.deleteOriginFile
    ensures CompressionPlugins(env)
         == [Compression(".gz", "gzip", true), Compression(".br", "brotliCompress", true)]
  {
    JoinSplit(["gzip", "brotli"]);
    assert Join(["gzip", "brotli"]) == "gzip,brotli";
  }

  /** The visualizer descriptor `visualizer({ filename: "stats.html", ... })`. */
  const Visualizer: Plugin := Other("visualizer")

  /**
   * `createVitePlugins`: seven slots whatever the environment, the compression array
   * at index 3, the title injected at index 4, and the last slot the visualizer iff
   * `VITE_REPORT` is set, the falsy value otherwise.
   */
  function CreateVitePlugins(env: ViteEnv): (r: seq<Slot>)
    ensures |r| == 7
    ensures r[3] == Many(CompressionPlugins(env))
    ensures r[4] == One(Html(env.appTitle))
    ensures r[6] == One(Visualizer) <==> env.report
    ensures !env.report ==> r[6] == Falsy
  {
    [ One(Other("vue")),
      One(Other("eslint")),
      One(Other("vue-setup-extend")),
      Many(CompressionPlugins(env)),
      One(Html(env.appTitle)),
      One(Other("svg-icons")),
      if env.report then One(Visualizer) else Falsy ]
  }

  /** The slots other than compression, title and report are the same for every environment. */
  lemma VitePluginsFixedSlots(env1: ViteEnv, env2: ViteEnv, i: int)
    requires i in {0, 1, 2, 5}
    ensures CreateVitePlugins(env1)[i] == CreateVitePlugins(env2)[i]
    ensures CreateVitePlugins(env1)[i].One? && CreateVitePlugins(env1)[i].plugin.Other?
  {
  }
}
