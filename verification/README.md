# Verified model of the huoding front-end decision logic

This project models the three pieces of decision logic in the front-end scaffolding
of the huoding admin application and proves what they promise:

- **Proxy mapper** (`build/proxy.ts`, module `Proxy` in `proxy.dfy`). `createProxy` folds a
  list of `(prefix, target)` rules into a dictionary keyed by prefix. Each entry has
  `changeOrigin` and `ws` set, and a `rewrite` that strips the prefix from a request path.
  It also has `secure: false`, but only when the target starts with the literal `https://`.
  The loop is the method `CreateProxy`. It is proved equal to the fold `Build`, and the
  lemmas about `Build` give the key set, the last-write-wins rule, the entry flags and the
  independence of entries for different prefixes.
- **Plugin composer** (`build/plugins.ts`, module `Plugins` in `plugins.dfy`).
  `createCompression` splits `VITE_BUILD_COMPRESS` (default `"none"`) on commas. It pushes a
  gzip descriptor when `gzip` is an exact token and a brotli descriptor when `brotli` is.
  `createVitePlugins` puts that array in slot 3 of a fixed seven-slot list. The last slot is
  the visualizer when `VITE_REPORT` is set and the falsy value otherwise. JavaScript's
  `split(",")` is modelled by `Split`, and its round trip with `Join` is proved both ways.
- **HTTP interceptors** (`src/api/index.ts`, module `Http` in `http.dfy`). The user store, the
  router and the message box become an explicit `Session`: the token, the last navigation
  target and the log of error messages shown. The request interceptor adds `Authorization`
  when the token is non-empty. The response interceptor sorts the envelope's `code` into
  three branches: session overdue, application error, or delivered. It is proved against
  the pure step `Respond`. `ReplaySession` states what any run of responses does to the session.

`ResultEnum.SUCCESS`, `ResultEnum.OVERDUE` and `LOGIN_URL` live in modules that are not part
of this model. They are fields of `Http.Settings`, so the lemmas hold for any values. Lemmas
that need SUCCESS and OVERDUE to be distinct say so in a `requires`. Codes are modelled as
integers or absent. On integers the source's loose `code == OVERDUE` and strict
`code !== SUCCESS` agree.

Two places where the code differs from the usual description of this client. The model
follows the code in both:

- The success path resolves with the whole `res.data` envelope, not with its inner `data`
  field (src/api/index.ts:37, 53).
- The error test is `code && code !== SUCCESS`, so a code of `0` is falsy and takes the
  success path, just like an absent code (src/api/index.ts:48).

## Model

| member | source | states |
|---|---|---|
| `Proxy.Rewrite` | build/proxy.ts:29 | when the path starts with the prefix, prefix + result is the path (one leading copy removed); otherwise the path comes back unchanged |
| `Proxy.CreateProxy` | build/proxy.ts:12-35 | the dictionary built by the loop over the rules (default `[]`) is the in-order fold `Build`, and its key set is exactly the set of rule prefixes |
| `Proxy.BuildKeys` | build/proxy.ts:14-25 | the fold has exactly one key per distinct input prefix, keyed by that prefix |
| `Proxy.BuildLastOccurrence` | build/proxy.ts:14-32 | a repeated prefix keeps the entry built from its last occurrence in the list |
| `Proxy.BuildEntryShape` | build/proxy.ts:24-31 | every entry has a target listed for its own prefix, `changeOrigin` and `ws` true, and a rewrite with its own prefix; `secure == false` exactly when the target starts with the literal, case-sensitive `https://`, and there is no `secure` field otherwise |
| `Proxy.BuildLaterRulesKeepOthers` | build/proxy.ts:14-33 | rules appended for other prefixes neither add, remove nor change the entry for a given prefix |
| `Proxy.EmptyListEmptyProxy` | build/proxy.ts:12-13 | an absent or empty rule list yields an empty dictionary |
| `Proxy.RewriteStripsOnce` | build/proxy.ts:29 | the rewrite removes exactly one leading copy of the prefix, even when the prefix repeats |
| `Proxy.HttpsBackendExample` | build/proxy.ts:9-31 | the rule `("/api", "https://backend.example.com")` gives one entry with `secure: false`; `/api/users` rewrites to `/users`; `HTTPS://` and `http://` targets are not https |
| `Plugins.Split` | build/plugins.ts:39 | `split(",")` always yields at least one piece |
| `Plugins.SplitJoin` | build/plugins.ts:39 | joining the pieces with commas gives the string back, and no piece holds a comma |
| `Plugins.JoinSplit` | build/plugins.ts:39 | splitting the comma-join of comma-free pieces gives exactly those pieces |
| `Plugins.CreateCompression` | build/plugins.ts:37-60 | the array built by the two conditional pushes is `CompressionPlugins(env)` |
| `Plugins.CompressionSelection` | build/plugins.ts:39-59 | gzip descriptor (`.gz`, `gzip`) present iff `gzip` is an exact token; brotli descriptor (`.br`, `brotliCompress`) iff `brotli` is; nothing else; at most two; gzip before brotli; each carries the delete-origin flag |
| `Plugins.UnsetCompressSelectsNothing` | build/plugins.ts:38-40 | with `VITE_BUILD_COMPRESS` unset, the default `"none"` yields an empty array |
| `Plugins.InexactTokensIgnored` | build/plugins.ts:39-58 | padded or unknown tokens (`" gzip"`, `"brotli "`, `"zstd"`) add nothing and raise no error |
| `Plugins.GzipBrotliExample` | build/plugins.ts:39-58 | `"gzip,brotli"` with delete-origin set yields exactly the `.gz` then the `.br` descriptor, both deleting originals |
| `Plugins.CreateVitePlugins` | build/plugins.ts:11-35 | returns seven slots in fixed order: the compression array at index 3, the title injected at index 4, and as last slot the visualizer iff `VITE_REPORT` is set, the falsy value otherwise |
| `Plugins.VitePluginsFixedSlots` | build/plugins.ts:13-31 | slots 0, 1, 2 and 5 are the same opaque plugins for every environment |
| `Http.ClassifyCases` | src/api/index.ts:41-53 | overdue exactly on `OVERDUE`, checked first; error exactly on a present code other than 0, SUCCESS and OVERDUE; delivered on an absent code, 0 or SUCCESS |
| `Http.WithToken` | src/api/index.ts:27-30 | `Authorization` equals the token when the token is non-empty; an empty token leaves the headers unmodified; no other header is touched |
| `Http.RespondOverdue` | src/api/index.ts:41-46 | on OVERDUE the token becomes empty, navigation goes to the login URL, exactly one message carrying `msg` is logged, and the call rejects with the envelope |
| `Http.RespondApplicationError` | src/api/index.ts:48-51 | on another present non-zero code that is not SUCCESS, exactly one message with `msg`, rejection with the envelope, token and navigation unchanged |
| `Http.RespondDelivered` | src/api/index.ts:37-53 | on SUCCESS, 0 or an absent code, the call resolves with the whole envelope and the session is unchanged |
| `Http.RespondTokenOnlyCleared` | src/api/index.ts:42 | the only token a response ever writes is the empty one, and only on the overdue branch |
| `Http.OverdueDropsCredential` | src/api/index.ts:28-42 | after an overdue response, the next request goes out without an added `Authorization` header |
| `Http.ReplaySession` | src/api/index.ts:36-54 | over any run of responses, the message log grows by exactly the `msg` of each rejected response, in order; token and route stay unchanged unless an overdue response occurred, and after one they are empty and the login URL |
| `Http.RequestHttp.RequestInterceptor` | src/api/index.ts:25-32 | the config's headers are updated in place to `WithToken(old headers, token)`, its URL is unchanged, and the same config object is returned |
| `Http.RequestHttp.RequestInterceptorCatch` | src/api/index.ts:33-35 | rejects with the incoming error unchanged |
| `Http.RequestHttp.ResponseInterceptor` | src/api/index.ts:36-54 | the new session state and the outcome are exactly those of the step `Respond` on the old state |
| `Http.RequestHttp.ResponseInterceptorCatch` | src/api/index.ts:55-57 | rejects with the incoming error unchanged |

## Left out

- Regular-expression semantics of `new RegExp("^" + prefix)`: `Rewrite` is a literal prefix strip, which agrees with the source only for prefixes without regular-expression metacharacters.
- Key order of the proxy dictionary: the returned object keeps first-insertion order (a repeated prefix keeps its first position while taking its last value), and its consumer tries prefixes in that order; a Dafny `map` has no order, so the model does not capture which prefix wins when several match a path.
- JavaScript object-key quirks of the proxy dictionary (a prefix `"__proto__"` sets the prototype instead of adding a key): the dictionary is a Dafny `map`.
- The `rewrite` closure is represented by the prefix it captured (`ProxyConfig.rewriteFrom`), not by a function value.
- Third-party plugin objects (`vue()`, `eslintPlugin()`, `vueSetupExtend`, `createHtmlPlugin`, `createSvgIconsPlugin`, `visualizer`, `viteCompression`) are opaque descriptors. Only the arguments this code passes (compression options, page title) are kept. `path.resolve` and `process.cwd()` are not part of this model.
- `VITE_REPORT` and `VITE_BUILD_COMPRESS_DELETE_ORIGIN_FILE` are modelled as booleans, so other truthy or falsy values are not distinguished.
- Axios itself is not modelled: the instance, base URL, timeout, `withCredentials`, interceptor registration in the constructor, and the verb helpers `get`, `post`, `put`, `delete` and `download`. These are pass-throughs to a library that is not part of this model.
- The Pinia store, `router.replace` and `ElMessage.error` are modelled only as recorded effects on `Session`. The relative order of the three effects in the overdue branch is not observable there.
- Promises and asynchrony: each interceptor call is one synchronous step that resolves or rejects. Interleaving of concurrent requests is not modelled.
- A response whose body `res.data` is `null` or `undefined`: destructuring it throws a TypeError, so the call rejects with that error and shows no message; `Envelope` always has a body, so this path is not modelled.
- Envelope codes are integers or absent. Non-numeric codes, where loose `==` and strict `!==` would differ, are not modelled.
- src/main.ts (bootstrap) and src/routers/modules/staticRouter.ts (a declarative route table) hold no decision logic and are not modelled.
