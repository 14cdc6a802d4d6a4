# wholesome — a Dafny model of its decision logic

`wholesome` is a small Rust web server. At start-up it reads Reddit API
credentials from the environment, obtains an OAuth access token, fetches the
"hot" listing of r/wholesomememes with `limit=2` and keeps the last post
returned (the second hottest), then picks its listening port from `PORT` and
serves a fixed greeting. This project models the logic inside that glue:

- `U16Parse` (`u16_parse.dfy`): the `u16::from_str` parse that `determine_port`
  applies to `PORT`, written as Rust's standard library reads decimal text: an
  empty string is `Empty`; a lone `+` or `-` is `InvalidDigit`; one leading
  `+` is skipped and a `-` is kept, so it fails as a non-digit; digits are read
  left to right with a checked multiply and a checked add, so the first
  character that is a non-digit or that overflows decides the error. The
  parser is proved equal to a reference definition (`Expected`) stated without
  the digit loop, and decimal rendering followed by parsing is proved to give
  back every number up to 65535.
- `Reddit` (`reddit.dfy`): the decoded response types, the projection of the
  access token, the selection of the last listing child (or `NoPosts`), and the
  error's display text. The outcome of each HTTP call, already decoded, is an
  input `Result`.
- `Server` (`server.dfy`): the `hello` service function (GET on `/` gives 200
  and `hello, world!`, any other method on `/` gives 405, any other path gives
  404, and it never fails), `determine_port` (unset gives 3000, non-Unicode is
  an error, otherwise the parse, whose failure is an error), and the order of
  the start-up steps in `main`, with environment lookups and the two Reddit
  call outcomes as inputs.
- `Wrappers` (`wrappers.dfy`): `Option` and `Result`.

Three facts about the code shape the model. The post is fetched once, at
start-up, and only logged; requests never trigger a fetch. The root path
returns the constant `hello, world!`; no page is built from the post. A failed
fetch stops start-up; no request is ever answered with status 500.

## Model

| member | source | states |
|---|---|---|
| `U16Parse.ParseU16` | src/main.rs:66 | the parse fails with `Empty` exactly when the text is empty |
| `U16Parse.Accumulate` | src/main.rs:66 | the digit loop never reports `Empty`, and a value it returns is at least the value already read |
| `U16Parse.ValueMonotone` | src/main.rs:66 | reading more digits never makes the value smaller, which is why overflow is met before any later non-digit |
| `U16Parse.AccumulateFrom` | src/main.rs:66 | the digit loop, started after any digit prefix it has read, ends in the outcome the reference classification gives: overflow if the leading digits exceed 65535, else invalid digit if a non-digit follows, else the value |
| `U16Parse.ParseMatchesExpected` | src/main.rs:66 | on every input the parser equals the reference definition: empty, lone sign, overflow, invalid digit or value |
| `U16Parse.ParseU16Ok` | src/main.rs:66 | parsing succeeds if and only if the text is an optional `+` followed by one or more digits of value at most 65535, and then returns that value |
| `U16Parse.ParseRejectsNonDigit` | src/main.rs:66 | any character other than an ASCII digit after the optional `+` (a space, a `-`, a letter) makes the parse fail |
| `U16Parse.ParseRejectsOverflow` | src/main.rs:66 | digits denoting more than 65535 fail with `PosOverflow` and never wrap around |
| `U16Parse.DecimalValue` | src/main.rs:66 | the decimal rendering of n denotes n |
| `U16Parse.ParseDecimal` | src/main.rs:66 | for every n up to 65535, parsing its decimal rendering gives back n |
| `Server.Hello` | src/main.rs:46-60 | routing never fails; the status is always one of 200, 405, 404; 200 if and only if GET on `/`, 405 if and only if another method on `/`, 404 if and only if another path; the body is `hello, world!` with 200 and empty otherwise |
| `Server.HelloIgnoresMethodOffRoot` | src/main.rs:54-58 | off the root path the method does not matter, GET included |
| `Server.HelloNonGetAlike` | src/main.rs:49-53 | every method other than GET gets the same answer on any path |
| `Server.DeterminePort` | src/main.rs:62-68 | unset PORT gives 3000; non-Unicode PORT gives an error carrying its bytes; a present PORT gives a port if and only if its text is an accepted u16 text, and then its value; otherwise the error is the kind the reference classification gives (empty, invalid digit, or overflow when the digits before any other character already exceed 65535), never 3000 |
| `Server.DeterminePortDecimal` | src/main.rs:66 | PORT holding the decimal text of any u16 selects exactly that port |
| `Server.DeterminePortOverflow` | src/main.rs:66 | PORT holding digits above 65535 is an overflow error, not 3000 and not a wrapped value |
| `Server.RequireVar` | src/main.rs:23-25 | a credential lookup succeeds exactly when the variable is set to a string, which it returns; otherwise the error is the context message with the lookup error (unset, or not Unicode with its bytes) as its cause |
| `Server.Startup` | src/main.rs:23-33 | start-up stops at the first failing step with that step's error: a missing client id, then a missing secret (each with its own message and lookup error), then the token call's error, then the listing call's error, then `NoPosts` for an empty listing, then the PORT error; it succeeds if and only if none of these fail, and then holds the decoded token, the last child's post and the port PORT yields |
| `Server.StartupEmptyListing` | src/main.rs:28-33 | an empty listing stops start-up with `NoPosts` whatever PORT holds, since the post is chosen before the port |
| `Server.StartupSecondHottest` | src/main.rs:28-33 | with a two-post listing and PORT unset, start-up holds the second post and port 3000 |
| `Reddit.Display` | src/reddit.rs:50-54 | `NoPosts` displays as `no posts`; a request failure displays its own message |
| `Reddit.AccessToken` | src/reddit.rs:9-26 | the token is the decoded response's `access_token` verbatim; a failed request or decoding is passed on unchanged |
| `Reddit.SelectPost` | src/reddit.rs:39-42 | selection fails, with `NoPosts`, if and only if there are no children; otherwise the post is the data of the last child |
| `Reddit.HotWholesomeMeme` | src/reddit.rs:28-43 | a failed listing call is passed on unchanged; a successful one yields `NoPosts` if and only if it has no children, and otherwise the data of its last child |
| `Reddit.SelectLast` | src/reddit.rs:39-40 | whatever precedes it, the last child is the one selected |
| `Reddit.SelectIgnoresPrefix` | src/reddit.rs:39-40 | children before the final non-empty part of a listing never influence the selection |
| `Reddit.SelectSingle` | src/reddit.rs:39-40 | a one-child listing yields that child |
| `Reddit.SecondHottest` | src/reddit.rs:31-42 | a listing of the requested size two yields the second post, and not the first unless the two are identical |
| `Reddit.SelectCopiesFields` | src/reddit.rs:76-83 | the selected post has the last child's title, permalink and url unchanged; a null url stays null |

## Left out

- The hyper server: binding the socket, the `serve` loop and the async runtime (src/main.rs:34-41). The model stops at the port start-up would bind.
- Logging set-up and the `info!` lines (src/main.rs:16-21, 29, 31, 36): side effects only.
- The Reddit HTTP requests: the token POST with its multipart form, basic authentication and user agent, and the listing GET with its bearer token and `limit=2` query (src/reddit.rs:14-23, 29-37). Their outcomes are inputs. Only the `limit` value is kept, as `Reddit.ListingLimit`.
- JSON decoding of the token response and the listing (src/reddit.rs:56-74): the decoded records are inputs, and every request or decoding failure is one `RequestFailed` error carrying the library's message.
- `Server.Startup`: the token and listing outcomes are independent inputs, so the model does not capture that the listing request uses the token obtained before it, or that both use the credentials.
- `Server.Method`: extension methods are any other token; the model does not state that the standard names can never appear as extension tokens.
- The paths compared by `hello` are taken as the request library hands them over; URI parsing and normalisation are not part of this model.
- The display texts of `ParseIntError` and `VarError`, which come from Rust's standard library. The model keeps the error values (the parse error kind, the lookup error and its bytes) but not how they are printed.
