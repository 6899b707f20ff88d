# vcl-client session lifecycle, modelled in Dafny

vcl-client is a command-line client for an Apache VCL (Virtual Computing Lab)
server, a service that hands out remote virtual machines. Its core is the
path from "submit a request" to "connected":

- resolve the image by id or by a case-insensitive name filter over a cached
  catalogue;
- submit the reservation;
- poll its status until it is `ready`;
- pick a connection method;
- open an SSH shell with a bounded retry, or write a Remmina RDP profile and
  launch it.

Around that sit the credential gate on every call made through `api.py`, the status checks of
the replies, the request-list projection and active-request filter, and the
`request`, `connect`, `delete`, `extend`, `config`, `images` and `list`
commands of the two entry points.

The model is sequential and deterministic. Each collaborator is an input
given by its result:

- server replies (`Api.Response`: a decoded body, an XML-RPC fault or a
  transport failure);
- the status replies of a poll, as a finite script;
- prompt answers and confirmations;
- the platform name;
- the outcome of each SSH attempt, as a function from the attempt number.

Effects are an output trace (`Base.Event`: echoed lines, prompts,
confirmations, sleeps, status queries, SSH logins, RPC posts, tables). Python
exceptions, `sys.exit` included, are `Base.Exc`. A step ends in
`Base.Outcome`: `Ok`, `Raised`, or `Polling` when the status script ran out
while the client would still be polling.

State the source changes in place is held in classes:

- `Cfg.Config` holds the stored credentials and the image cache;
- `Rdp.ProfileStore` holds the home directory as a map from file name to
  contents, and a record of launched commands.

The status poll, the SSH retry of `ssh.py` and the SSH retry of
`utils.auto_connect` are Dafny loops. Each is proved against a specification
function: `Utils.Poll` for the poll, `Ssh.Retry` for both retries. The
properties are lemmas about those functions. The list comprehensions and the
loops that only echo a listing are recursive functions: `Api.Matching`,
`Api.ProjectRequests`, `Utils.Actives`, `Utils.ActiveLines` and
`Utils.MethodLines`.

Modules follow the source files:

- `Base`: shared vocabulary.
- `Cfg`: the configuration store.
- `Api`: `api.py`.
- `Request`: `request.py`.
- `Ssh`: `connect_methods/ssh.py`.
- `Rdp`: `connect_methods/rdp.py`.
- `Utils`: `utils.py`.
- `AutoConnect`: `auto_connect.py`.
- `Cli`: `cli.py`.
- `Vcl`: `vcl.py`.

`choose_connect_method` and `print_connection_details` are the same code in
`utils.py` and `auto_connect.py`, so they are modelled once, in `Utils`.

## Model

| member | source | states |
|---|---|---|
| Base.HandleError | vcl_client/utils.py:170-173 | prints 'ERROR: <message>' on standard error, then `sys.exit(1)`: exit status 1 |
| Base.ExitCode | vcl_client/utils.py:170-173 | zero exactly on a normal return or `sys.exit(0)`; for `sys.exit(c)` it is the argument c; any other uncaught exception is non-zero |
| Base.Lower | vcl_client/api.py:76 | `lower()` keeps the length and lower-cases each character |
| Base.LowerIdempotent | vcl_client/api.py:76 | lower-casing twice is lower-casing once |
| Base.ContainsMiddle | vcl_client/api.py:56-57 | a text built around a string contains it (how an error message names the status) |
| Base.PyIndex | vcl_client/utils.py:91 | Python list indexing: in-range and negative indexes give the element counted from the front or the back, anything else is IndexError |
| Api.AuthCheck | vcl_client/api.py:18-25 | passes with no output exactly when username and password are both truthy; otherwise prints the 'Credentials not found' hint and exits 1 |
| Api.MakeHeaders | vcl_client/api.py:35-40 | the headers carry the stored username and password, content type text/xml and API version '2' |
| Api.Received | vcl_client/api.py:42-46 | a delivered reply yields its body; a fault and a transport failure raise |
| Api.CallApi | vcl_client/api.py:28-46 | without credentials nothing is posted and the call exits 1; with them exactly one request is posted, with the stored credentials' headers; every posted request carries truthy credentials |
| Api.SubmissionStatus | vcl_client/api.py:53-57 | passes exactly when the status is 'success'; otherwise a RuntimeError whose message contains the status |
| Api.Request | vcl_client/api.py:49-57 | with credentials and a reply, succeeds exactly when the status is 'success'; any RuntimeError names the reply's status |
| Api.Matching | vcl_client/api.py:75-76 | keeps only catalogue entries whose lower-cased name contains the lower-cased term |
| Api.MatchingAppend | vcl_client/api.py:75-76 | the filter keeps catalogue order (filtering a concatenation is concatenating the filtered parts) |
| Api.MatchingComplete | vcl_client/api.py:75-76 | every matching entry is kept |
| Api.MatchingIgnoresTermCase | vcl_client/api.py:76 | the filter result does not depend on the case of the term |
| Api.FilterImages | vcl_client/api.py:74-83 | a falsy term returns the whole list; otherwise exactly the matches, or 'No matches found for that filter.' when there are none |
| Api.ImagesSpec | vcl_client/api.py:60-83 | a fetch (on refresh or empty cache) shows the fetch's effects and stores the fetched list; no fetch means no server call and an unchanged cache; a failed fetch leaves the cache; every image returned is in the cache |
| Api.CacheReadBack | vcl_client/api.py:62-79 | a fetch stores the full catalogue even when its own filter then fails, and the next call without refresh reads that list back with no server call |
| Api.LoadImages | vcl_client/api.py:62-83 | fetches and stores on refresh or an empty cache, otherwise reads the cache; result and cache agree with `Api.ImagesSpec` |
| Api.Images | vcl_client/api.py:60-83 | `images` through the gated `call_api`, with the cache rule and filter of `Api.ImagesSpec` |
| Api.ProjectRequests | vcl_client/api.py:92-101 | one row per request, in order, each [imageid, imagename, state, ostype, OS] |
| Api.RequestList | vcl_client/api.py:86-103 | None exactly when the server lists no request; otherwise the projected rows in input order |
| Api.TestStatus | vcl_client/api.py:109-112 | passes exactly when the status is 'success', otherwise a bare ValueError |
| Api.TestCall | vcl_client/api.py:106-112 | with credentials and a reply: Ok for 'success', ValueError otherwise |
| Api.CredentialVerdict | vcl_client/utils.py:220-225 | a fault or ValueError becomes 'Endpoint did not accept credentials.'; every other exception, `sys.exit` included, becomes 'Credentials or endpoint invalid.'; success stays success |
| Request.CallApi | vcl_client/request.py:15-30 | always posts one request with the stored credentials' headers, with no credential check |
| Request.UngatedCall | vcl_client/request.py:15-30 | with missing credentials this module still posts, while `api.call_api` only prints the hint |
| Request.Boot | vcl_client/request.py:33-40 | posts to the boot endpoint; with a reply, succeeds exactly on 'success'; any RuntimeError names the status |
| Request.Images | vcl_client/request.py:43-66 | the same cache rule and filter as `api.images` (`Api.ImagesSpec`), fetched over the ungated call |
| Request.RequestList | vcl_client/request.py:69-72 | the server's 'requests' value, unmodified |
| Request.ValidateCredentials | vcl_client/request.py:75-86 | passes exactly on a 'success' reply; a non-success status or a fault gives 'Endpoint did not accept credentials.'; a transport failure gives 'Credentials or endpoint invalid.' |
| Ssh.Retry | vcl_client/connect_methods/ssh.py:34-42 | the loop from attempt k on ends normally or with an exception that is not retried: a socket error without 'No route to host', or another exception |
| Ssh.RetryUnfold | vcl_client/connect_methods/ssh.py:34-42 | one turn of the loop: a returning attempt stops, no-route sleeps 2 and continues, another socket error or another exception is raised |
| Ssh.RetryBounded | vcl_client/connect_methods/ssh.py:34 | at least one and at most five attempts; never more sleeps than attempts |
| Ssh.RetryAfterNoRoutes | vcl_client/connect_methods/ssh.py:38-40 | after k no-route failures the loop has made k attempts, each followed by exactly one sleep of 2 |
| Ssh.StopsAtFirstReturn | vcl_client/connect_methods/ssh.py:36-37 | the first attempt that returns ends the loop: k+1 attempts, k sleeps, no error |
| Ssh.OtherSocketErrorRaised | vcl_client/connect_methods/ssh.py:41-42 | any other socket error is re-raised at once, with no further attempt or sleep |
| Ssh.ExhaustedIsSilent | vcl_client/connect_methods/ssh.py:34-42 | five no-route failures give 5 attempts, 5 sleeps and a normal return |
| Ssh.ThreeFailuresThenSuccess | vcl_client/connect_methods/ssh.py:34-42 | three no-route failures and then a returning attempt give 4 attempts and 3 sleeps |
| Ssh.StartSshShell | vcl_client/connect_methods/ssh.py:45-59 | declining the confirmation returns without connecting, and counts as a returning attempt; otherwise the shell is opened with the address, user and stored password |
| Ssh.ShellUsesStoredPassword | vcl_client/connect_methods/ssh.py:16-23 | every login of the loop uses the given address, user and locally stored password |
| Ssh.HandleSsh | vcl_client/connect_methods/ssh.py:26-42 | Windows is refused before any attempt or sleep; otherwise the announced loop ends as `Ssh.Retry` says, with its attempt and sleep counts |
| Rdp.ProfileFields | vcl_client/connect_methods/rdp.py:10-46 | the profile has `server=<ip>`, `username=<user>`, `protocol=RDP` and a blank `password=` line |
| Rdp.ProfileName | vcl_client/connect_methods/rdp.py:91 | `.vcl_<id>.remmina` matches the glob `.vcl_*.remmina` |
| Rdp.WithoutProfiles | vcl_client/connect_methods/rdp.py:49-51 | no profile is left, whatever request it was for; every other file keeps its contents; no file appears |
| Rdp.OneProfileAfterWrite | vcl_client/connect_methods/rdp.py:54-96 | on Linux, after clean and write exactly one profile exists, `.vcl_<id>.remmina`, holding the profile text |
| Rdp.NoProfileOffLinux | vcl_client/connect_methods/rdp.py:86-89 | off Linux no profile is left, since the clean step has run and the write has not |
| Rdp.ReentryReplaces | vcl_client/connect_methods/rdp.py:54-58 | running the handler twice leaves what the second run alone leaves |
| Rdp.ProfileStore.CleanRdpFiles | vcl_client/connect_methods/rdp.py:49-51 | the home directory becomes `Rdp.WithoutProfiles` of what it was |
| Rdp.ProfileStore.WriteRdpFile | vcl_client/connect_methods/rdp.py:77-96 | on Linux writes the profile at `.vcl_<id>.remmina` and returns its path; elsewhere raises "RDP not supported on OS: '<os>'" and writes nothing |
| Rdp.ProfileStore.LaunchRdp | vcl_client/connect_methods/rdp.py:61-74 | asks first, showing the password; declining launches nothing and returns before the OS check; on Linux launches `remmina -c <path>`; elsewhere raises |
| Rdp.ProfileStore.HandleRdp | vcl_client/connect_methods/rdp.py:54-58 | clean, write, launch in that order: the directory becomes `Rdp.RdpFiles`; off Linux it raises with nothing launched; on Linux it launches exactly when confirmed |
| Utils.MinuteSpelling | vcl_client/utils.py:199-204 | 'minute' exactly when the time left is 1, 'minutes' otherwise |
| Utils.Poll | vcl_client/utils.py:58-73 | the poll from reply i on: never more sleeps than polls, nor more polls than replies; it ends ready, exits 1, or is still polling exactly when every remaining reply slept |
| Utils.PollUnfold | vcl_client/utils.py:60-73 | one tick: 'ready' stops, 'loading' reports the minutes left and sleeps 15, any other status exits 1 |
| Utils.PollAfterLoading | vcl_client/utils.py:60-73 | after k 'loading' replies: k polls, each with one report line and one sleep of 15 |
| Utils.StopsAtFirstReady | vcl_client/utils.py:60-73 | the poll stops at the first 'ready', with no sleep after it |
| Utils.UnknownStatusIsFatal | vcl_client/utils.py:70-71 | any other status ends the poll on that tick with "Received status '<s>'." and exit status 1; nothing is polled after it |
| Utils.AllLoadingKeepsPolling | vcl_client/utils.py:60-73 | while every reply is 'loading' the poll never ends, with one poll and one sleep per reply |
| Utils.CheckRequestStatus | vcl_client/utils.py:58-73 | the `while True` loop produces exactly the run, poll count and sleep count of `Utils.Poll` |
| Utils.Actives | vcl_client/utils.py:125-131 | the comprehension succeeds exactly when every row can be read, and then lists [row[5], row[1]] of active rows only; otherwise IndexError |
| Utils.ActivesAppend | vcl_client/utils.py:125-131 | the filter keeps input order |
| Utils.ActivesComplete | vcl_client/utils.py:125-131 | every row in state 'reserved' or 'inuse' is listed |
| Utils.GetActiveRequests | vcl_client/utils.py:118-136 | None, an empty list or no active row raises 'No active requests to connect to.'; a result is never empty |
| Utils.FiveColumnsNeverActive | vcl_client/utils.py:125-131 | on five-column rows the filter finds nothing or raises IndexError |
| Utils.ListingHasNoRequestId | vcl_client/utils.py:118-136 | as written, over `api.request_list` no active request is ever returned |
| Utils.ReservedRequestRaises | vcl_client/utils.py:125-131 | as written, one reserved request makes the filter raise IndexError |
| Utils.RowWithId | vcl_client/utils.py:19-26 | the corrected row: the five projected columns, then the request id at index 5, as the 'request' headings say |
| Utils.RowsWithId | vcl_client/utils.py:19-26 | one corrected row per request, in order |
| Utils.RequestListWithId | vcl_client/api.py:86-103 | the corrected listing: same call and same None rule as `request_list`, rows with the request id |
| Utils.ActiveRequestsOf | vcl_client/utils.py:125-131 | the reference definition: the id and name of each reserved or in-use request |
| Utils.CorrectedActives | vcl_client/utils.py:125-131 | on the corrected listing the filter yields exactly the reserved and in-use requests, with their ids, in order |
| Utils.ConnectableWhenReserved | vcl_client/utils.py:118-136 | on the corrected listing one reserved request is returned |
| Utils.ActiveLines | vcl_client/utils.py:88-89 | line i shows number idx+i, the request's name and its id, so the listing from 1 matches the entry k-1 that k picks |
| Utils.ChooseActiveRequest | vcl_client/utils.py:76-93 | one request is taken with no prompt; otherwise the requests are listed and k picks entry k-1; an out-of-range k is IndexError; a lookup RuntimeError exits 1 |
| Utils.ZeroPicksLast | vcl_client/utils.py:91 | entering 0 picks the last request listed |
| Utils.Lookup | vcl_client/utils.py:106 | a dictionary lookup: found exactly when the key is present, with that key's description; otherwise KeyError |
| Utils.MethodLines | vcl_client/utils.py:101-103 | one line per method, its key and description |
| Utils.ChooseConnectMethod | vcl_client/utils.py:96-106 | one entry gives key 0's description with no prompt; otherwise the methods are listed and k selects key str(k); a missing key is KeyError |
| Utils.NoMethodsIsKeyError | vcl_client/utils.py:96-106 | with no methods the prompt still comes, and then a KeyError |
| Utils.ShownPassword | vcl_client/utils.py:210 | a falsy password is shown as '(your campus password)', otherwise verbatim |
| Utils.PrintConnectionDetails | vcl_client/utils.py:207-215 | a heading, then IP address, username and password, in that order |
| Utils.CliPrintTable | vcl_client/utils.py:109-115 | only 'image', 'request' and 'activerequest' have headings; any other type is "Header '<t>' not recognized." |
| Utils.ImageRows | vcl_client/utils.py:153 | one [id, name] row per image, in order |
| Utils.GetImageId | vcl_client/utils.py:139-157 | a numeric argument is used unchanged with no catalogue read; one match gives its id; several are tabled and prompted for; a filter ValueError prints 'Error: <msg>' and gives None, and is the only way to None |
| Utils.ValidateCredentials | vcl_client/utils.py:218-225 | passes exactly with credentials and a 'success' reply; missing credentials become 'Credentials or endpoint invalid.'; a refusal or fault becomes 'Endpoint did not accept credentials.' |
| Utils.InitializeSsh | vcl_client/utils.py:176-187 | one attempt logs in with the address, user and stored password, and asks no confirmation |
| Utils.Handled | vcl_client/utils.py:48-52 | a socket error other than no-route goes to `handle_error`: its strerror and exit 1 |
| Utils.OtherSocketErrorExits | vcl_client/utils.py:44-52 | another socket error exits 1 after k+1 attempts and k sleeps |
| Utils.ExhaustedAutoConnectIsSilent | vcl_client/utils.py:44-52 | five no-route failures end the loop without any error, after 5 attempts and 5 sleeps |
| Utils.RetryInitializeSsh | vcl_client/utils.py:44-52 | the `for` loop produces `Ssh.Retry` over `initialize_ssh`, with its attempt and sleep counts, then `Utils.Handled` |
| Utils.AutoConnect | vcl_client/utils.py:30-55 | SSH on 'nt' prints the refusal and the details, with no attempt; SSH elsewhere announces and runs the retry loop; any other method is "Connection method '<m>' is unsupported."; a failed choice propagates |
| AutoConnect.Dispatch | vcl_client/auto_connect.py:17-31 | the SSH description calls `handle_ssh(ip, user)` only, without the password; 'Remote Desktop' calls `handle_rdp(id, ip, user, password)`; any other description calls nothing |
| AutoConnect.AfterHandler | vcl_client/auto_connect.py:18-28 | a handler RuntimeError prints the details, then 'ERROR: <msg>', and exits 1; anything else the handler ended with stands |
| AutoConnect.AutoConnect | vcl_client/auto_connect.py:11-31 | choose, announce, dispatch; an unsupported method raises with no handler called |
| AutoConnect.HandlerFailureExits | vcl_client/auto_connect.py:20-28 | a handler RuntimeError is never swallowed: exit status 1, the four detail lines, then the error line |
| AutoConnect.UnsupportedCallsNothing | vcl_client/auto_connect.py:29-31 | an unsupported description calls no handler and raises its RuntimeError |
| AutoConnect.SshOnWindows | vcl_client/auto_connect.py:17-22 | SSH on Windows: the refusal is reported after the details, exit 1 |
| AutoConnect.RdpOffLinux | vcl_client/auto_connect.py:23-28 | Remote Desktop off Linux: the refusal is reported the same way, exit 1 |
| Cli.CatchRuntime | vcl_client/cli.py:45-49 | a RuntimeError prints 'ERROR: <msg>' and exits 1; anything else passes through |
| Cli.RequestInstance | vcl_client/cli.py:24-49 | resolve, submit, poll, connect in that order; a submission RuntimeError exits 1 with no poll; --no-status stops after submission; --no-connect prints the details and never auto-connects; after a filter error None is submitted |
| Cli.RequestIdOrChoose | vcl_client/cli.py:60-61 | a missing or empty --request-id is chosen among the active requests first |
| Cli.Connect | vcl_client/cli.py:58-71 | the id first (chosen if not given); --details only prints the details; otherwise auto_connect, with a RuntimeError exiting 1 |
| Cli.Images | vcl_client/cli.py:81-84 | the catalogue of `api.images` under the 'image' headings; the cache as `Api.ImagesSpec` leaves it |
| Cli.ListRequests | vcl_client/cli.py:88-95 | the projected requests under the 'request' headings, or 'No requests found.' for an empty server list |
| Cli.Delete | vcl_client/cli.py:101-114 | `api.delete` runs only after the confirmation; declining ends quietly; a RuntimeError exits 1 |
| Cli.Extend | vcl_client/cli.py:121-130 | `api.extend` with the given time, then the success line; a RuntimeError exits 1 |
| Cli.Config | vcl_client/cli.py:137-145 | store the settings, then validate; a ValueError from either exits 1 with its message; the success line comes only after validation |
| Cli.ConfigEmptyPassword | vcl_client/cli.py:139-143 | with an empty password, validation fails with 'Credentials or endpoint invalid.' |
| Vcl.Params | vcl_client/vcl.py:50 | the tuple (image, start, length, 0 if timeout else 1): the inactivity flag is inverted |
| Vcl.DefaultSubmission | vcl_client/vcl.py:22-30 | the defaults give start 'now', 480 minutes and a timeout flag of 0 |
| Vcl.RequestInstance | vcl_client/vcl.py:31-55 | a numeric image is submitted unchanged; one match uses its id; a filter ValueError prints 'Error: <msg>' and nothing is submitted; a boot RuntimeError prints 'ERROR: <msg>' and the command still ends normally |
| Vcl.ListRequests | vcl_client/vcl.py:84-102 | each request projected to imageid, imagename, state, ostype, OS in order; an empty list prints 'No requests found.' |

## Where the model follows the code over the documented behaviour

- Five failed SSH attempts end both retry loops silently. This holds for
  `ssh.handle_ssh` and for `utils.auto_connect`. Nothing reports that no
  connection was made.
- `ssh.handle_ssh` re-raises a socket error other than no-route.
  `socket.error` is not a RuntimeError, so `auto_connect.auto_connect`
  does not catch it. No details are printed and the error propagates.
- With zero connection methods, `choose_connect_method` still prompts and
  then fails with a KeyError.
- In `cli.request`, a filter error makes `get_image_id` return None.
  The command does not stop: it goes on and submits None.
- `utils.validate_credentials` turns missing credentials into 'Credentials
  or endpoint invalid.'. Its bare `except:` catches the `sys.exit` of
  `auth_check`.
- `choose_active_request` does not bounds-check the entered number.
  A 0 or a negative number wraps around Python-style.
- `images` treats the cache as present when the stored JSON text is
  non-empty. An empty catalogue is stored as `[]`, so it counts as cached.

## Findings

| source | as written | input that shows it | evidently intended | confidence | as-written member | corrected member |
|---|---|---|---|---|---|---|
| vcl_client/utils.py:125-131 | `get_active_requests` reads `r[5]` (REQUEST_ID_IDX) of rows from `api.request_list`, which builds rows of five columns (vcl_client/api.py:92-101) | a server list with one request in state 'reserved': the comprehension raises IndexError; with no active row it reports 'No active requests to connect to.' — no request is ever returned | the listing carries the request id as a sixth column, as the 'request' headings (vcl_client/utils.py:19-23) name it, so active requests are listed by id | not executed | Utils.ListingHasNoRequestId | Utils.CorrectedActives |

`Utils.ReservedRequestRaises` exhibits the IndexError for a single reserved
request. The corrected listing is `Utils.RequestListWithId`. On it,
`Utils.ConnectableWhenReserved` shows that the reserved request is returned.
The commands are modelled over the result of `choose_active_request`, so they
do not depend on which listing is used.

## Left out

- The XML-RPC and HTTP transport is not modelled (`xmlrpclib`, `urllib2`). Replies are already-decoded values; a fault and a transport failure are the two error cases.
- The KeyError or IndexError of reading `response[0][0]['status']` from a malformed body is not modelled. Bodies are decoded into `Api.StatusBody` beforehand.
- paramiko, the interactive shell and `click.clear` are not modelled. An SSH attempt is an abstract result: it returns, fails with a socket error carrying its strerror, or fails with another exception. A socket error whose strerror is None is not modelled.
- `rm -f` and `remmina` are not run. The profile store is a map from file name to contents, and launches are a recorded command list.
- The home path passed to the store is an input; `os.path.expanduser` is not modelled.
- The persistence in `vcl_client/cfg.py` is not modelled: ConfigParser, the keyring and the JSON encoding of the image cache. `Cfg.Config` holds the decoded values. The JSON round trip is taken as exact.
- `cfg.vcl_conf`, `cfg.set_conf` and `cfg.ENDPOINT_KEY` are referenced but not part of this model. The outcome of storing the settings is an input of `Cli.Config`.
  - `Cli.Config` assumes that a successful `cfg.vcl_conf` stores exactly the typed username and password. Validation reads those credentials back, so `Cli.ConfigEmptyPassword` holds only under this assumption.
- Base.ExitCode: gives the argument of `sys.exit` itself. The operating system's reduction of the status to 8 bits is not modelled.
- `vcl.config` writes through `keyring.set_password` and `cfg.set_conf`. Neither is part of this model, so that command is not modelled.
- `is_number` relies on Python float parsing. It is a boolean input.
- `tabulate` rendering and click colours are not modelled. A table is an event holding its headings and rows.
- The length of a sleep is its event's argument; real time is not modelled.
- `api.request_details`, `api.request_status`, `api.delete` and `api.extend` are not part of this model. They are inputs given by their results.
  - `api.request_details` is taken to give the same details on each call within one command.
- `utils.auth_check` is not part of this model. The credential check at the start of `vcl.request` and `vcl.list` is an input run.
- `api.request` is called with one argument but defined with four, and returns no id (vcl_client/cli.py:29, vcl_client/api.py:49-57). The submit step of `Cli.RequestInstance` is therefore an input run giving the request id. `Api.Request` models the definition as written.
- `vcl ssh` is an empty command and is not modelled. The `extend` and `delete` stubs in `vcl.py` are not commands and are not modelled either.
- Dictionary iteration order is not modelled. The connection methods are a sequence of (key, description) pairs, and a lookup finds the first pair with the key.
- Lower-casing covers ASCII letters only. Unicode case mapping is not modelled.
- The early `return` after `handle_error` in `choose_active_request` is not modelled separately: `SystemExit` already ends the command there.
- Rdp.ProfileFields: states that the profile has a blank `password=` line, not that this is its only password line.
- Cli.RequestInstance: for several image matches the typed id is submitted as given; click's re-prompting on non-integer input is not modelled (the answer is an integer input).
