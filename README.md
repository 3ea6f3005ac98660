# PushToWordpress (presser) — a Dafny model

`presser` is a command-line tool that publishes local text files, optionally
converted from Markdown to HTML, as posts on a WordPress site through its
XML-RPC endpoint. This project models the part of `presser.py` that holds
logic of its own:

- **Configuration** (`config.dfy`, module `Config`): `read_config` reads
  `site`, `username` and `password` from the `[wordpress_site]` section. A
  missing section or option makes `presser` fall back to the prompts. Both
  sources get `/xmlrpc.php` appended once. The endpoint then gets `http://` in
  front unless it already starts with exactly `http://`.
- **Configuration discovery** (`config_search.dfy`, module `ConfigSearch`):
  `find_config_file` walks the directory tree and returns the path of the
  first file whose `os.path.splitext` extension is exactly `.ini`. POSIX
  `splitext` and `os.path.join` are modelled as functions. The walk is a
  sequence of `(root, files)` entries.
- **Publishing** (`publisher.dfy`, module `Publisher`): the loop over
  `--posts`. Each file is read, converted unless `--no-parse`, and put into a
  fresh `WordPressPost` object (a class whose three fields the loop sets).
  In dry run the post is printed and no call is made. Otherwise it is sent
  with one `NewPost` call; `InvalidCredentialsError` ends the run. The loop
  (`ProcessPosts`) is proved equal to a closed-form trace (`PublishTrace`),
  and the lemmas state ordering, dry-run suppression and the abort.
- **Entry point** (`cli.dfy`, module `Cli`): `presser()` after argument
  parsing. It chooses the configuration path (an absent or empty `--config`
  means search), resolves the settings and creates the client. It stops on
  an empty post list, then runs the loop.

Parameters stand for the outside world:
- `load` gives the parsed INI contents of a path.
- `answers` gives the three prompt answers.
- `reachable` says whether `Client(...)` succeeds.
- `read` gives a file's text.
- `markdown` is the uninterpreted Markdown converter.
- `call(k)` is the outcome of the `k`-th `NewPost` call.

`sys.exit()` and the crash paths become tags of `Publisher.Exit`.

Three behaviours of the code that are easy to miss:
- When no `.ini` file is found and no `--config` is given, the code passes
  `None` to `cparser.read` (`presser.py:38-40`), which raises an uncaught
  `TypeError`; the model records it as the tag `NoConfigFile`.
- With an empty post list, the client is still created first
  (`presser.py:60-65` before `:71-73`). An unreachable site therefore ends
  the run as `Unreachable` before the empty list is noticed.
- The `http://` test is made on the endpoint, after `/xmlrpc.php` was
  appended. So the site value `http:/` counts as having a scheme (its
  endpoint reads `http://xmlrpc.php`). `https://…` does not count and becomes
  `http://https://…/xmlrpc.php`.

## Model

| member | source | states |
|---|---|---|
| `Config.Endpoint` | push_to_wordpress/presser.py:15 | the site value followed by `/xmlrpc.php`, appended once: the result starts with the site, ends with the suffix, and is exactly 11 characters longer |
| `Config.ReadConfig` | push_to_wordpress/presser.py:13-18 | succeeds exactly when the section and all three options exist, returning the site's endpoint and the user name and password unchanged; otherwise `NoSectionError`, or `NoOptionError` naming the first missing option in the order site, username, password |
| `Config.ResolveSettings` | push_to_wordpress/presser.py:36-48 | settings from the configuration when it is complete, otherwise from the prompt answers, with `/xmlrpc.php` appended to the typed site as well |
| `Config.NormaliseUrl` | push_to_wordpress/presser.py:50-54 | the result always starts with `http://`; a URL that already starts with exactly `http://` is unchanged; any other URL gets `http://` in front |
| `Config.ConnectionSettings` | push_to_wordpress/presser.py:36-54 | the URL handed to the client starts with `http://` and ends with `/xmlrpc.php`, whichever source the site came from; user name and password are passed through |
| `Config.NormaliseKeepsSuffix` | push_to_wordpress/presser.py:51-54 | prefixing the scheme keeps any suffix of the URL, in particular `/xmlrpc.php` |
| `Config.NormaliseIdempotent` | push_to_wordpress/presser.py:51-54 | normalising an already normalised URL changes nothing |
| `Config.SchemeTestOnEndpoint` | push_to_wordpress/presser.py:46-54 | the endpoint passes the `^http://` test exactly when the site starts with `http://` or the site is `http:/` |
| `Config.ConnectionUrlShape` | push_to_wordpress/presser.py:36-54 | the final URL is `site/xmlrpc.php` when the site passes the test above, else `http://site/xmlrpc.php`, for the configured or typed site |
| `Config.HttpsIsPrefixed` | push_to_wordpress/presser.py:51-54 | an `https://host` site becomes `http://https://host/xmlrpc.php` |
| `Config.UpperCaseSchemeIsPrefixed` | push_to_wordpress/presser.py:51 | the scheme test is case-sensitive: `HTTP://…` gets `http://` in front |
| `ConfigSearch.RFind` | push_to_wordpress/presser.py:105 | the last index holding the character, or -1 when there is none; no later index holds it |
| `ConfigSearch.SplitExt` | push_to_wordpress/presser.py:105 | root and extension concatenate to the name; a non-empty extension is one dot followed by no dot and no slash |
| `ConfigSearch.SplitExtNonEmpty` | push_to_wordpress/presser.py:105 | the extension is non-empty if and only if the last path component has a dot with some non-dot character before it (leading dots are ignored) |
| `ConfigSearch.Join` | push_to_wordpress/presser.py:107 | the joined path ends with the file name; an absolute name replaces the root; for a relative name the path starts with the root and adds at most one character between root and name, and that character is `/` |
| `ConfigSearch.JoinPlain` | push_to_wordpress/presser.py:107 | for a root not ending in `/` and a relative name the path is `root + "/" + f` |
| `ConfigSearch.JoinAtFileSystemRoot` | push_to_wordpress/presser.py:107 | at the walk root `/` a relative name gives `"/" + f`, with no second slash |
| `ConfigSearch.FindConfigFile` | push_to_wordpress/presser.py:100-107 | the nested loops return exactly the path of the first config-named file in walk order, or nothing |
| `ConfigSearch.ConfigNameIff` | push_to_wordpress/presser.py:105 | a file name has extension `.ini` if and only if it ends in `.ini` and some character before that is not a dot (case-sensitive) |
| `ConfigSearch.BareIniIsNotConfig` | push_to_wordpress/presser.py:105 | a file named exactly `.ini` is not selected |
| `ConfigSearch.UpperCaseIsNotConfig` | push_to_wordpress/presser.py:105 | `X.INI` is not selected |
| `ConfigSearch.LaterExtensionIsNotConfig` | push_to_wordpress/presser.py:105 | `site.ini.bak` is not selected: only the last extension counts |
| `ConfigSearch.PlainIniIsConfig` | push_to_wordpress/presser.py:105 | `site.ini` is selected |
| `ConfigSearch.FirstInDirAt` | push_to_wordpress/presser.py:104-107 | within one directory the first config-named file in list order is the one returned |
| `ConfigSearch.FirstInDirNone` | push_to_wordpress/presser.py:104-107 | a directory yields nothing exactly when none of its files is config-named |
| `ConfigSearch.FirstInDirFound` | push_to_wordpress/presser.py:104-107 | whatever a directory yields is the joined path of its first config-named file |
| `ConfigSearch.FirstConfigSome` | push_to_wordpress/presser.py:102-107 | if `(i, j)` is the first match in walk order (no match in an earlier directory, none earlier in directory `i`), the search returns `join(root_i, file_j)` |
| `ConfigSearch.FirstConfigNone` | push_to_wordpress/presser.py:102-107 | the search returns nothing if and only if no file anywhere in the walk is config-named |
| `ConfigSearch.FirstConfigFound` | push_to_wordpress/presser.py:102-107 | any path the search returns is the joined path of the first match in walk order |
| `Publisher.WordPressPost.constructor` | push_to_wordpress/presser.py:84 | a fresh post object, whose fields the loop then overwrites |
| `Publisher.BuildPost` | push_to_wordpress/presser.py:84-87 | a fresh post object whose title, content and status are the given values |
| `Publisher.Records` | push_to_wordpress/presser.py:75-87 | one post is built per listed file |
| `Publisher.FirstStopFrom` | push_to_wordpress/presser.py:93-98 | the first call at or after `i` that is not accepted, with every call before it accepted |
| `Publisher.FirstStop` | push_to_wordpress/presser.py:93-98 | the first of `n` calls that is not accepted, or `n`; every earlier call is accepted |
| `Publisher.ProcessPosts` | push_to_wordpress/presser.py:75-98 | the loop produces exactly the closed-form trace: files opened, posts submitted, files reported, previews, and how it ended |
| `Publisher.RecordsAt` | push_to_wordpress/presser.py:78-87 | post `i` has the run's title and status, and content `markdown(raw)` or, with `--no-parse`, the raw text of file `i` |
| `Publisher.DryRunMakesNoCalls` | push_to_wordpress/presser.py:67-92 | in dry run no `NewPost` call is made for any list, yet every file is opened and converted and its post printed, in order |
| `Publisher.SubmissionsInOrder` | push_to_wordpress/presser.py:75-98 | outside dry run post `i` is submitted as call `i`, each at most once; every submission but a failing last one is reported as uploaded; only the files submitted were opened |
| `Publisher.CredentialsAbort` | push_to_wordpress/presser.py:93-98 | if call `k` raises `InvalidCredentialsError` after `k` accepted calls, files `0..k-1` were submitted once and reported, file `k` was submitted, and no later file is opened or submitted |
| `Publisher.AllAcceptedPublishesAll` | push_to_wordpress/presser.py:93-95 | when every call is accepted, every file is submitted and reported in list order |
| `Publisher.DryRunNoParseScenario` | push_to_wordpress/presser.py:24-28 | `--posts a.md --no-parse --dry-run` with `a.md` holding `hello` previews one post titled `A new post` with content `hello` and status draft, and makes no call |
| `Cli.Presser` | push_to_wordpress/presser.py:21-98 | chooses `--config` or the first `.ini` of the walk (an empty `--config` also means search); when no `--config` is given and the search finds no `.ini` file, the run ends (a `--config` file that cannot be read yields no section and so falls back to the prompts); the URL starts with `http://` and ends with `/xmlrpc.php`; an unreachable site ends the run before anything is opened; an empty list ends it next; otherwise the loop's trace; posts are submitted only when the client exists and the run is not a dry run |

## Left out

- Argument parsing (argparse): the options are a `RunOptions` value. `--status` is limited to its three choices by the type `PostStatus`.
- INI parsing: `load` returns the parsed section/option/value map directly. Interpolation, the DEFAULT section, option-name case folding and parse errors are not modelled.
- Interactive `input` and `getpass`: the answers are supplied as `answers`.
- The Markdown-to-HTML algorithm: `markdown` is an uninterpreted function parameter.
- The XML-RPC client: `Client(...)` succeeding is the predicate `reachable`, and each `NewPost` outcome is the oracle `call`. An exception other than `IOError` or `ServerConnectionError` while creating the client is not modelled.
- `call` depends only on the call's position, not on the post content or server state.
- `os.walk` order and the filesystem: the walk is an input sequence with the directory lists dropped. File contents are the function `read`.
- File open, read and decode failures: they propagate uncaught and are not modelled.
- Console output (the connection banner, previews, `Done uploading`, error messages): previews and uploaded paths are recorded in the trace instead of printed.
- `sys.exit()` and the uncaught `TypeError` after a failed search: modelled only as the terminal tags of `Exit`.
- Publisher.WordPressPost.constructor: the library's defaults for a new post are not visible. The model starts from empty strings and draft, and the loop overwrites all three fields before use.
