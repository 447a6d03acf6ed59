# podsql in Dafny

podsql runs a database client inside a short-lived Kubernetes pod. The user
writes the client's own arguments (`podsql mysql -h db -u app -e "select 1"`,
`podsql sqlcmd -S db,1433 -U sa -Q "select 1"`). An engine *commander*
translates them into a connection descriptor, a query and a shell command
line. Then one of two things happens:

- **Batch run.** When a query was given, podsql creates a pod that runs the
  command. The query reaches the pod through a ConfigMap mounted at `/sql`,
  and the credentials through a basic-auth secret that the pod's environment
  reads. podsql waits for the pod, collects its logs and deletes it.
- **Interactive run.** Without a query, podsql creates an idle pod with the
  same secret and execs the client into it on a terminal. It deletes the pod
  when the session ends.

The model has one module per source file:

| module | source | what it holds |
|---|---|---|
| `DbCommander` | dbcommander.go | the engine tags, the connection descriptor, the classifier from a connection string to an engine |
| `Mysql` | mysql.go | the `mysql` commander: a class whose `ParseArgs` loop fills its fields, specified by a pure left-to-right fold `ParseFrom`; the command lines |
| `SqlServer` | sqlserver.go | the `sqlcmd` commander, in the same shape; `-S host,port` splitting, the help switch, the dash escaping |
| `Engines` | dbcommander.go (the interface) | the `DBCommander` interface as a variant over the two commanders, and the `EngineView` snapshot of its answers that the pod code reads |
| `SqlResults` | sqlresults.go | the cleanup of a batch run's output into lines |
| `Kube` | (the Kubernetes objects used) | the records of pods, ConfigMaps, secrets, env vars and exec options |
| `Pod` | pod.go | errors, the pod name, the secret, the env vars, the readiness poll, the foreground delete |
| `RunPod` | runpod.go | the batch run |
| `ExecPod` | execpod.go | the interactive run |

`Strs` models the few functions of Go's `strings` package that the code
relies on. `Wrappers` holds `Option` and `Result`.

**How the pieces are modelled.**

- **API calls.** Every call to the Kubernetes API is modelled by its outcome, a
  parameter of the operation (`RunOutcomes`, `ExecOutcomes`). The operations
  return the trace of calls they issue (`seq<Call>`) next to their result.
- **Readiness poll.** The poll is modelled by the sequence of observations made
  before its one-minute deadline.
- **Panics.** An argument list on which the Go parsers panic gives a
  `ParseError`: a separated flag with no value after it, or sqlcmd's lone `-`.

**Behaviours the model exposes.** These are proved about the model, which follows
the code:

- With no arguments, `podsql mysql` runs `mysql ... --help` **interactively**,
  because `--help` sets no query. `podsql sqlcmd` runs `sqlcmd -?` as a batch
  run (`Mysql.NoArgumentsRunsHelpInteractively`, `SqlServer.NoArgumentsRunsHelp`).
- **mysql joined flags.** A joined mysql flag takes the text between its first
  and second `=`, so `--execute=a=b` sets the query to `a` (`Mysql.ClassifyMeaning`).
- **sqlcmd `-D` and `-i`.** These flags are dropped, but their separate value
  is not consumed: it is forwarded to sqlcmd as a quoted positional
  (`SqlServer.DroppedFlagValueForwarded`).
- **Executor failure.** When ExecPod cannot build its executor, it returns
  without deleting the pod it created (`ExecPod.ExecPod`).
- **Batch-run delete failure.** RunPod wraps the failure twice, as "failed to
  delete pod: failed to delete pod: …" (`RunPod.RunPod`).
- **Cleaned output.** `ParseSQLResults` keeps the first line except for empty
  output and for output made of an empty line, then a rule, and no further
  newline (`"\n-…"` with nothing after the rule line): both lines are then
  removed (`SqlResults.FirstLineKept`).

## Model

| member | source | states |
|---|---|---|
| DbCommander.CommandType.String | dbcommander.go:9-18 | every engine tag prints as a non-empty string |
| DbCommander.StringInjective | dbcommander.go:13-18 | two tags print the same text exactly when they are the same tag |
| DbCommander.ClassificationByKeyword | dbcommander.go:43-58 | the empty string is Unknown; each tag holds exactly when its keyword occurs and no keyword of higher priority (mysql, then sqlserver, then postgresql) does; Unknown exactly when none occurs |
| Mysql.MysqlCommander.constructor | mysql.go:19-23 | a new commander keeps the arguments and starts from port "3306" with every other field empty |
| Mysql.MysqlCommander.Assign | mysql.go:32-66 | one recognised flag sets exactly its own field (or the query) and leaves the rest of the state alone |
| Mysql.MysqlCommander.ParseArgs | mysql.go:28-77 | the loop leaves the state the fold `ParseFrom` computes, or reports the missing value the Go code would index past the end for |
| Mysql.NewMysqlCommander | mysql.go:19-26 | construction succeeds exactly when `Parse` does, and the fresh commander holds `Parse`'s state and the original arguments |
| Mysql.ParseAppend | mysql.go:29-75 | parsing `a + b` is parsing `b` resumed from the state parsing `a` left |
| Mysql.ClassifyMeaning | mysql.go:31-74 | a token is passed through exactly when it spells none of the six targets; a separated token is the target's short or long flag; a joined token starts with `--<target>=` and its value is the piece after the first `=` |
| Mysql.SeparatedTokenMeaning | mysql.go:32-66 | a separated token is `-h`/`--host` (and likewise for the other targets) and spells its target |
| Mysql.JoinedTokenMeaning | mysql.go:35-63 | a joined token spells its target, starts with its joined prefix, contains `=`, and carries the second `=`-piece |
| Mysql.JoinedTokenForm | mysql.go:35-63 | a joined token's value is the text after its prefix up to the next `=` |
| Mysql.UnrecognisedSpellsNothing | mysql.go:67-73 | a token that reaches the pass-through cases spells no target |
| Mysql.EscapingOfUnrecognised | mysql.go:67-73 | an unrecognised `--k=v` is forwarded as `--k="v"` built from its first two `=`-pieces, another dash token unchanged, and anything else in double quotes |
| Mysql.JoinedPrefixExcludes | mysql.go:35-61 | a token with one target's joined prefix spells no other target |
| Mysql.ClassifyJoinedPrefix | mysql.go:35-63 | every token starting with a joined prefix is classified as that target's joined form |
| Mysql.ClassifyJoined | mysql.go:35-63 | `--<target>=v` followed by nothing or by more `=` text assigns exactly `v` |
| Mysql.ClassifySeparated | mysql.go:32-66 | both plain spellings of every flag are separated flags of their target |
| Mysql.SeparatedAndJoinedAgree | mysql.go:32-66 | `-h x`, `--host x` and `--host=x` (for every target, `x` without `=`) parse the same |
| Mysql.LastOccurrenceWins | mysql.go:29-75 | a flag appended at the end decides its field and leaves every other field as before; its joined form agrees |
| Mysql.TrailingFlagWithoutValue | mysql.go:33-34 | a short or long separated flag as the last token fails with the missing value it names |
| Mysql.UnspelledFieldKept | mysql.go:29-75 | a field that no token spells keeps the value it had before the pass |
| Mysql.Defaults | mysql.go:19-24 | without a flag for it, the port is "3306" and every other field and the query are empty |
| Mysql.NoExecuteIsInteractive | mysql.go:79-81 | without an execute flag the query stays empty, so the run is interactive |
| Mysql.PassThroughInOrder | mysql.go:67-73 | unrecognised tokens are appended in input order, one escaped entry each, and change nothing else |
| Mysql.CommandLayout | mysql.go:91-115 | the interactive command is `mysql -h S -P Port -u $SECRET_DB_USER`, then `-D db` only for a non-empty database, then the escaped arguments; the batch command is that followed by ` < /sql/query.sql` |
| Mysql.ConnectionArgsJoined | mysql.go:92-100 | the connection arguments joined with spaces, written out |
| Mysql.CommandsOmitPassword | mysql.go:91-126 | the password does not change either command line; the client reads it from `MYSQL_PWD`, mapped to the secret's password key |
| Mysql.NoArgumentsRunsHelpInteractively | mysql.go:156-163 | no arguments parse as the single forwarded `--help` with no query, that is an interactive run |
| SqlServer.SqlServerCommander.constructor | sqlserver.go:20-24 | a new commander keeps the arguments and starts with every field empty and help off |
| SqlServer.SqlServerCommander.AssignFlag | sqlserver.go:36-90 | a value flag sets its field; `-S` splits at `,`, strips `tcp:` and sets the port only when one is given |
| SqlServer.SqlServerCommander.ParseArgs | sqlserver.go:29-106 | the loop leaves the state the fold `ParseFrom` computes, or reports the panic the Go code would hit |
| SqlServer.NewSqlServerCommander | sqlserver.go:20-27 | construction succeeds exactly when `Parse` does, and the fresh commander holds `Parse`'s state |
| SqlServer.ParseAppend | sqlserver.go:30-104 | parsing `a + b` is parsing `b` resumed from the state parsing `a` left |
| SqlServer.ClassifyValueFlag | sqlserver.go:36-90 | `-U` alone is the separated form and `-Uvalue` the joined form with that value, for every value flag |
| SqlServer.SeparatedAndJoinedAgree | sqlserver.go:36-90 | `-U name` and `-Uname` parse the same, for every value flag and non-empty value |
| SqlServer.ValueFlagAppended | sqlserver.go:30-90 | a value flag and its value appended to a well-formed list perform their assignment last |
| SqlServer.ParseFailures | sqlserver.go:30-100 | a trailing value flag fails with its missing value; a lone `-` anywhere after a well-formed prefix fails |
| SqlServer.LastOccurrenceWins | sqlserver.go:51-90 | a later `-U`/`-P`/`-d`/`-q`/`-Q` overrides the earlier one, and `-q` and `-Q` set the same query |
| SqlServer.TokenKeepsField | sqlserver.go:36-102 | a token that spells no flag writing a field leaves that field alone |
| SqlServer.UnspelledFieldKept | sqlserver.go:30-104 | a field (server, user, password, database or query) that no token spells keeps the value it had before the pass; `-q` and `-Q` count as the same field |
| SqlServer.LastFlagWins | sqlserver.go:30-104 | after `a + [flag, x] + b` with no flag for the same field in `b`, the field is `x` (the host part of `x` for `-S`), whatever else `b` does; `-Ux` parses like `-U x` |
| SqlServer.LaterServerWithoutPortKeepsPort | sqlserver.go:43-50 | a later `-S host` replaces the server but keeps the port an earlier `-S host,port` set |
| SqlServer.ServerWithPort | sqlserver.go:43-50 | `-S host,port` sets both fields and nothing else; a `tcp:` prefix on the host is stripped |
| SqlServer.ServerValuePieces | sqlserver.go:43 | a `host,port` value with comma-free parts splits into exactly host and port |
| SqlServer.ServerWithoutPort | sqlserver.go:43-50 | `-S host` sets the server only (without `tcp:`), keeping any earlier port |
| SqlServer.ServerArgRoundTrip | sqlserver.go:43-50 | the `-S` argument the commands print parses back to the same server and port |
| SqlServer.DroppedFlags | sqlserver.go:91-94 | `-D…` and `-i…` are dropped without any effect |
| SqlServer.DroppedFlagValueForwarded | sqlserver.go:91-102 | a value written after a dropped flag is not consumed but forwarded as a quoted positional |
| SqlServer.PositionalIsQuoted | sqlserver.go:101-102 | a token not starting with `-` is forwarded in double quotes |
| SqlServer.EscapingRoundTrip | sqlserver.go:95-102 | no forwarded token loses text: removing the added quotes gives it back |
| SqlServer.PassThroughForm | sqlserver.go:95-102 | a forwarded token is quoted whole, kept as it is when it is a two-character flag, or quoted after its first two characters |
| SqlServer.UnescapeQuoted | sqlserver.go:101-102 | the quotes added around a positional are removed exactly |
| SqlServer.UnescapeDashed | sqlserver.go:99 | the quotes added after a flag's two characters are removed exactly |
| SqlServer.HelpSticky | sqlserver.go:33-35 | once a help flag has been seen, the rest of the pass keeps help on |
| SqlServer.HelpAnywhere | sqlserver.go:33-35 | a `-?` anywhere makes the run a batch run of `sqlcmd -?`, whatever else is given |
| SqlServer.NoQueryNoHelpIsInteractive | sqlserver.go:29-110 | without a help flag and without `-q`/`-Q` the run stays interactive |
| SqlServer.KeepsInteractive | sqlserver.go:33-90 | a token that is neither help nor a query flag neither turns help on nor sets the query |
| SqlServer.ConnectionArgsJoined | sqlserver.go:133-137 | the connection arguments joined with spaces, written out |
| SqlServer.CommandLayout | sqlserver.go:124-161 | the batch command is the interactive command with `-i /sql/query.sql` inserted after the credentials and before `-d db` and the forwarded arguments |
| SqlServer.CommandsOmitPassword | sqlserver.go:124-172 | the password does not change either command line; sqlcmd reads it from `$SECRET_DB_PASSWORD`, mapped to the secret's password key |
| SqlServer.NoArgumentsRunsHelp | sqlserver.go:201-205 | no arguments parse as `-?`, a batch run of the help command |
| Engines.QueryFileIsMountedKey | runpod.go:129 | both engines read the query from the mount path and key the ConfigMap uses |
| Engines.BatchCommandReadsQueryFile | sqlserver.go:124-144 | every batch command reads `/sql/query.sql`, except sqlcmd's help command |
| Engines.SecretKeysAreBasicAuth | mysql.go:121-126 | every secret-derived variable of either engine reads the secret's `username` or `password` key; `SECRET_DB_USER` reads the user |
| Engines.EngineTags | mysql.go:129-131 | the MySQL commander reports `mysql` and the sqlcmd commander `sqlcmd` |
| SqlResults.ParseSQLResults | sqlresults.go:8-19 | the method returns `Cleaned(out)`: the lines, without a rule in second place, without one trailing empty line |
| SqlResults.CleanedShape | sqlresults.go:8-19 | the result keeps the order of the lines, loses at most two of them, and is a prefix of the lines with the rule removed |
| SqlResults.RuleRemovedIff | sqlresults.go:11-13 | the second line is removed exactly when it starts with `-`; otherwise every line stays in place |
| SqlResults.EmptyOutput | sqlresults.go:8-19 | empty output gives no lines |
| SqlResults.FirstLineKept | sqlresults.go:8-19 | the first line survives unless the output is empty or is an empty line followed by a rule and nothing else |
| SqlResults.TableRoundTrip | sqlresults.go:8-19 | a printed table (header, rule, rows, final newline) comes back as the header and the rows |
| SqlResults.PlainRoundTrip | sqlresults.go:8-19 | text without a rule and without a final newline comes back line by line |
| SqlResults.OneTrailingBlankRemoved | sqlresults.go:15-17 | only one trailing empty line is removed |
| Pod.BackOffMessage | pod.go:28-30 | the back-off error's text names the reason and then gives back the kubelet's message |
| Pod.SanitizeKeepsPlainNames | pod.go:34-35 | a user name without `_` or `.` is kept as it is |
| Pod.SanitizeIdempotent | pod.go:34-35 | sanitising twice is sanitising once |
| Pod.PadDecimalRoundTrip | pod.go:46 | a number below 10^w prints in exactly w digits that read back as it |
| Pod.ParseStampFields | pod.go:46 | each field of a stamp is read back from the position the layout writes it to |
| Pod.StampRoundTrip | pod.go:46 | before year 10000 the `20060102-150405` stamp has 15 characters and determines the time |
| Pod.PodNamesDifferAcrossSeconds | pod.go:43-47 | two pod names with the same prefix are equal only for the same second and the same sanitised user |
| Pod.PodNameLayout | pod.go:43-47 | the name is prefix, stamp and sanitised user, each joined by one `-` |
| Pod.AsWrittenPanicsWhenLookupFails | pod.go:33-38 | as written, a failed user lookup dereferences the nil user instead of returning the wrapped error |
| Pod.CreatePodName | pod.go:32-48 | a failed lookup returns the wrapped lookup error, a failed time-zone load the wrapped load error, and success needs both to succeed |
| Pod.CreatePodNameAgrees | pod.go:32-48 | wherever the code as written does not panic, it agrees with the corrected function; it panics exactly when the lookup fails |
| Pod.CreatePodNameLayout | pod.go:43-47 | a successful name is `prefix-stamp-user` with the 15-character stamp right after the prefix |
| Pod.SecretSpecProperties | pod.go:50-65 | the secret is a basic-auth secret named and placed as asked, holding exactly the user and the password, controlled by the pod |
| Pod.GenerateSecretEnvVars | pod.go:130-151 | one variable per map entry, distinct names, each reading the mapped key of `<pod>-secret`, in the map's unspecified order |
| Pod.SecretEnvReadsSecret | pod.go:130-151 | every secret-derived variable reads a key the pod's basic-auth secret holds |
| Pod.DeletePodError | pod.go:119-128 | a delete fails exactly when the API call fails, with the cause wrapped under "failed to delete pod: " |
| Pod.FirstBackOffMeaning | pod.go:95-99 | the scan finds a container in image-pull back-off exactly when there is one, and it finds the first |
| Pod.StepMeaning | pod.go:86-100 | a poll is done exactly when the pod is Running, Succeeded or Failed; otherwise it fails with the first back-off, and keeps waiting when there is none |
| Pod.PollStep | pod.go:85-101 | the loop over the statuses computes the step `StepOf` describes |
| Pod.VerdictIsFirstDecision | pod.go:85-101 | the wait times out exactly when every observation says keep waiting; otherwise the first other observation decides |
| Pod.WaitForPodRunning | pod.go:84-117 | the loop returns the error and issues the calls that the verdict of the observations determines |
| Pod.WaitOutcomes | pod.go:101-116 | the wait succeeds exactly when the pod started; a back-off deletes the pod once and reports the back-off, joined with the delete's error if that fails too; other failures delete nothing; a timeout carries the deadline |
| Pod.BackOffStopsTheWait | pod.go:95-112 | a pending pod whose status shows a back-off stops the wait at once with that back-off and one foreground delete |
| RunPod.CreateRunPodSpec | runpod.go:106-137 | the run pod has one container named by the engine tag, running the batch command through `/bin/sh -c`, with the ConfigMap mounted at `/sql`, the secret variables followed by TZ, and restart policy Never |
| RunPod.QueryReachesBatchCommand | runpod.go:20-34 | the ConfigMap created is the one the pod mounts; it holds exactly the query under the key the batch command reads, and it goes with the pod |
| RunPod.RunPodEnvReadsItsSecret | runpod.go:41 | every secret variable of the run pod reads a key of the secret created beside it |
| RunPod.CreateRunObjects | runpod.go:15-45 | the pod, then the ConfigMap, then the secret, each built from the created pod; the error returned is `CreationError(o)`, the wrapped error of the first failing call; nothing is deleted |
| RunPod.RunPod | runpod.go:14-104 | a failed creation returns `failed to create clientset/pod/configmap/secret: …` for the first failure, after the creation calls made so far; success exactly when everything is created, the pod becomes ready, the logs open and the delete succeeds, and then the result is the logs; the calls in order; a wait error returned unchanged; the delete error wrapped twice; a foreground delete only at teardown or after a back-off |
| ExecPod.CreateExecPodSpec | execpod.go:91-109 | the exec pod is the run pod's container without a volume and with the idle command `tail -f /dev/null` |
| ExecPod.ExecTargetsPodContainer | execpod.go:48-55 | the exec runs the interactive command through `/bin/sh -c` in the pod's only container, with stdin, stdout and a terminal and no stderr |
| ExecPod.SecretEnvsAgree | pod.go:130-137 | two secret-derived lists for the same map hold the same variables, whatever their order |
| ExecPod.ExecPodMirrorsRunPod | execpod.go:91-109 | the exec pod and the run pod of the same name agree on metadata, container name, image, env and restart policy; only the run pod has a volume |
| ExecPod.PodEnvsAgree | execpod.go:102 | the two pods' env lists hold the same variables |
| ExecPod.IdleIsNotBatchCommand | execpod.go:103 | the exec pod's idle command is never the engine's batch command |
| ExecPod.CreateExecObjects | execpod.go:16-36 | the pod, then its secret and no ConfigMap; the error returned is `CreationError(o)`, the wrapped error of the first failing call; nothing is deleted |
| ExecPod.Session | execpod.go:42-88 | an executor failure returns at once; otherwise the exec and one foreground delete, with the stream and delete errors combined as the code does |
| ExecPod.AfterCreation | execpod.go:38-88 | after creation: the wait's error unchanged, or the session; one delete exactly when the session ran or the image backed off |
| ExecPod.ExecPod | execpod.go:15-89 | a failed creation returns `failed to create clientset/pod/secret: …` for the first failure, after the creation calls made so far; success exactly when everything is created, the pod becomes ready, the executor is built and both the stream and the delete succeed; the calls in order; an executor failure leaves the pod undeleted |

## Left out

- Building the Kubernetes client (`newClientset`, kubeconfig lookup) is one outcome parameter. The API server, the SPDY executor, the terminal and the log stream are outcome parameters too: no I/O is modelled.
- The readiness poll's one-second timer and one-minute timeout are modelled by the finite list of observations made before the deadline.
- RunPod's two goroutines are left out. One copies the log stream into a buffer. The other polls until the pod has Succeeded or Failed. The model treats both as finished before the delete and takes the gathered logs as one outcome, so the unsynchronised read of the log buffer is not modelled.
- `user.Current`, `time.LoadLocation` and `time.Now` are parameters of `Pod.CreatePodName`.
- Pod.StampRoundTrip: holds only for years below 10000, where Go's layout prints four digits.
- Pod.GenerateSecretEnvVars: Go's map iteration order is unspecified, so the contract fixes the set of variables and not their order.
- The pod-level operations (`RunPod.RunPod`, `ExecPod.ExecPod` and the spec builders) take an `EngineView` snapshot of the commander's answers. This is sound because no commander changes after construction.
- SqlServer.InteractiveCommandOf and SqlServer.BatchCommandOf: the Go code (sqlserver.go:143 and sqlserver.go:160) passes the joined command line to `fmt.Sprintf` as its format. The model takes the line as it is, so a `%` in a forwarded argument is not rewritten the way Sprintf would rewrite it.
- SqlServer.Classify / SqlServer.PassThroughForm: strings are sequences of characters, while the Go code measures and slices a forwarded dash token in bytes (`len(arg) == 2`, `arg[:2]`, `arg[2:]`). For a token whose second character is not ASCII the two differ: Go cuts inside that character's UTF-8 encoding (`-é` is forwarded as `-\xc3"\xa9"`), and the model forwards `-é` unchanged as a two-character flag.
- `Mysql.NewMysqlCommander` and `SqlServer.NewSqlServerCommander` return a `ParseError` where the Go code panics: an index past the end of the argument list, or a slice of a lone `-`.
- The Go MySQL commander has no `HelpCommand`, although the `DBCommander` interface requires one. Because of this the model's interface has no `HelpCommand`.
- The actions pass a configuration where RunPod and ExecPod take a namespace. The model takes the namespace directly.
- The `ParseResults` methods of both commanders return an empty list, so they are not modelled. `SqlResults.ParseSQLResults` is modelled instead.
- `createConfigMap` (runpod.go:152-165) is not called anywhere and is not modelled.
- config.go, main.go and postgresql.go (configuration flags, the CLI wiring and an unfinished PostgreSQL commander) are not part of this model.

## Findings

| source | as written | input that shows it | evidently intended | confidence | as-written member | corrected member |
|---|---|---|---|---|---|---|
| pod.go:33-38 | `currentUser.Username` is read before `err` is checked, and `user.Current` returns a nil user with its error | `user.Current()` fails (no passwd entry for the uid, as in some containers) | return `failed to get current user: <err>` | not executed | Pod.CreatePodNameAsWritten / Pod.AsWrittenPanicsWhenLookupFails | Pod.CreatePodName |
