# multipress core in Dafny

multipress is a command-line tool that deploys a set of WordPress sites
behind Caddy on Docker, with one MySQL server and a "model" site that new
instances are cloned from. This project models its core and proves
properties of the model:

- **Instance identifiers and names** (`config/config.go`).
  - `InstancesConfig.NextIdentifier` seeds a counter once from the largest
    `user<n>` credential key, then hands out `user<max+1>`, `user<max+2>`, …
  - The configuration's accessors derive container, network, volume and URL
    names from the project name and the base domain.
- **Default records** (`config/default.go`) and **password generation**
  (`pkg/utils/password.go`). The random draws are an input.
- **The `deploy` command** (`cmd/deploy/command.go`). It has a fixed table of
  ten steps and runs each through `utils.Spin`, which turns a
  `SkippedError` into success. The run stops at the first real error.
  - The configuration steps fill the shared `Config` object in place.
  - The network and volume steps act on the host.
- **Terminal layout** (`pkg/utils/terminal.go`): `Spin`'s classification of
  a step's result, and the text of `GetFullLine` and `PrintSeparator` for a
  given terminal width.
- **First-match file lookup** (`pkg/utils/fs.go`): `OpenFileAcrossFilesystem`
  over an ordered list of filesystems.

Modules, one per source file, plus two support modules:

- `Errors` models Go's nil-able values and `error` values. These are
  `errors.New`, `fmt.Errorf` with `%v`/`%w`, `errors.Join`, `SkippedError`,
  and `errors.As` for a skip.
- `Strconv` models `strconv.Atoi`, `%d` and the `uint64` wrap-around.

State that the source changes in place is a Dafny class:

- `Config.Config` holds the sections that `deploy` fills in.
- `Config.InstancesConfig` holds the lazily seeded counter.

The host (Docker networks, existing paths, owners) is a value passed in and
returned. Every answer a step or `Spin` gets from outside the program is a
field of `Deploy.Environment`: command and file-system failures, the TLS
prompt, saving the file, the random draws, whether the spinner starts, and
the terminal width. The result of loading the configuration is the
`loadError` argument of `Deploy.Action`, and the uid and gid are arguments
of `Defaults.NewDefaultConfig`.

A `strings.Repeat` call with a negative count panics. The model makes this a result: `None` from the line builders, and `Panicked` from `Deploy.Action`. It covers the separators `action` prints, each row's spinner prefix line, and the DONE, SKIP and FAIL line a started spinner draws when its step ends.

The `deploy` loop and the file lookup loop are methods proved against
specification functions (`Deploy.RunFrom`, `Fs.Lookup`). The properties are
stated as lemmas about those functions.

## Model

| member | source | states |
|---|---|---|
| Errors.Error.Message | pkg/utils/terminal.go:25-27 | A `SkippedError`'s message is exactly its `Msg`. A `%w` wrap's message is the context followed by the cause's message. |
| Errors.Describe | pkg/utils/fs.go:25 | `fmt.Errorf("<context>%v", err)` has the message context + cause message. It is never a skip, because `%v` cuts the chain. |
| Strconv.Atoi | config/config.go:169 | The result fits in a 64-bit `int`. Input that starts with a digit is accepted only if it is all digits, and then yields its decimal value. The empty string is rejected. |
| Strconv.FormatDecimalRoundTrip | config/config.go:180 | `%d` of n is a non-empty string of digits whose decimal value is n. |
| Strconv.AtoiOfFormatDecimal | config/config.go:169-180 | `Atoi` reads back every `%d` rendering of a number up to the int64 maximum. |
| Strconv.FormatDecimalInjective | config/config.go:180 | Different numbers print differently. |
| Strconv.ToUint64 | config/config.go:170-171 | `uint64(n)` keeps a non-negative n. A negative n becomes n + 2^64, which is at least 2^63. |
| Strconv.Increment | config/config.go:179 | `Add(1)` adds one below the maximum and wraps the maximum to 0. |
| Config.Config.constructor | config/config.go:47-57 | A `Config` literal: the scalar settings as given, every section nil. |
| Config.ServiceNamesDistinct | config/config.go:67-89 | The network and the five service containers get six pairwise different names, each the project name, a dash and its role word. |
| Config.InstanceNamesInjective | config/config.go:103-120 | Equal instance container names, volume paths or URLs imply equal identifiers. |
| Config.AllocatedNamesAvoidServices | config/config.go:59-120 | An allocated `user<n>` never shares a container name, volume path or URL with a fixed service. |
| Config.Suffix | config/config.go:167-173 | A key contributes a suffix only if it starts with `user`. |
| Config.SuffixExamples | config/config.go:167-173 | `user`, `userx` and `admin7` are ignored. `user007` gives 7 and `user+3` gives 3. `user-1` gives 2^64-1. |
| Config.IsMaxSuffixUnique | config/config.go:165-174 | The largest-suffix result is determined by the key set. |
| Config.ScanMaxSuffix | config/config.go:165-174 | The loop leaves the largest suffix among the keys, or 0 if none has one. |
| Config.SuffixOfIdentifier | config/config.go:169-180 | `user<n>` reads back as n when n fits in an `int`. |
| Config.IdentifierFresh | config/config.go:167-180 | A counter value above the scanned maximum, up to the int64 maximum, prints an identifier that is none of the scanned keys. |
| Config.BatchIdentifiersFresh | config/config.go:164-180 | The identifiers for seed+1 … seed+count are pairwise distinct, and none of them is a scanned key. |
| Config.IncrementWraps | config/config.go:179 | Incrementing a wrapped value equals wrapping the incremented value. |
| Config.NextCounterValue | config/config.go:179-180 | After k increments the counter is (seed+k) mod 2^64. Without overflow it is seed+k, and its identifier is fresh. |
| Config.InstancesConfig.constructor | config/config.go:22-26 | The literal has the given resources and credentials and a nil counter. |
| Config.InstancesConfig.NextIdentifier | config/config.go:160-181 | The first call scans the keys: the counter becomes max+1 and `user<max+1>` is returned. Later calls do not rescan; they add one (m+2, m+3, …, wrapping at 2^64). The identifier is fresh against the keys seen at seeding while the counter fits in an `int`. |
| Defaults.NewDefaultConfig | config/default.go:9-15 | Project "multipress", the uid and gid given, no base domain, every section nil. |
| Defaults.NewDefaultCaddyConfig | config/default.go:16-23 | 256M of memory and TLS issuer "internal". |
| Defaults.NewDefaultMysqlConfig | config/default.go:25-32 | 2G of memory and a 16-character root password over the alphabet. |
| Defaults.NewDefaultModelConfig | config/default.go:34-48 | 512M of memory; database and user "model"; admin "admin"; mail `admin@` + the model site's host; two 16-character passwords over the alphabet. |
| Defaults.NewDefaultInstancesConfig | config/default.go:50-57 | 512M of memory, an empty credential map, a nil counter. |
| Defaults.NewDefaultInstanceCredentialConfig | config/default.go:59-69 | Database, user and login all equal the identifier. The mail is `<id>@` + the instance site's host. Both passwords have 16 characters over the alphabet. |
| Defaults.InstanceCredentialsDistinct | config/default.go:59-69 | Equal database, user, login or mail implies equal identifiers. |
| Defaults.ModelCredentialsApartFromInstances | config/default.go:34-69 | The model site's credentials never coincide with those of an allocated `user<n>` instance. |
| Password.DrawnIndex | pkg/utils/password.go:15-18 | The crypto/rand index is used, or the math/rand fallback when crypto/rand fails. It is always in [0, 65). |
| Password.PasswordShape | pkg/utils/password.go:9-22 | The password has the requested length, position i is `charset[index_i]`, and every character is in the alphabet. |
| Password.GenerateSecurePassword | pkg/utils/password.go:11-23 | The filled buffer is exactly `PasswordOf(length, draws)`. Its length is `length` (0 gives ""), and every character is in the alphabet. |
| Terminal.Spin | pkg/utils/terminal.go:29-64 | With a working spinner the result is nil exactly when the step returned nil or a skip. Any other error comes back unchanged. Without a spinner the raw result comes back. |
| Terminal.StopOutcome | pkg/utils/terminal.go:50-62 | The DONE branch is taken exactly when the step returned nil. |
| Terminal.SpinFollowsStopOutcome | pkg/utils/terminal.go:50-63 | The caller sees an error exactly when the FAIL branch is taken, and it is that error. The SKIP branch shows the skip's message. |
| Terminal.SpinFallbackKeepsSkip | pkg/utils/terminal.go:41-46 | When the spinner cannot be created or started, a `SkippedError` reaches the caller. |
| Terminal.Repeat | pkg/utils/terminal.go:78 | `strings.Repeat` of one character n times is n copies of it. |
| Terminal.GetFullLine | pkg/utils/terminal.go:73-82 | It panics exactly when the texts are one rune short of the width. Shorter texts fill exactly `width` runes (left, space, separators, space, right). Texts at least as wide become left + " " + right. |
| Terminal.GetFullLineFixed | pkg/utils/terminal.go:73-82 | Every text shorter than the width fills it exactly. Texts at least width-1 long become left + " " + right. |
| Terminal.GetFullLineFixedAgrees | pkg/utils/terminal.go:77-79 | The fix agrees with the original wherever the original does not panic. |
| Terminal.SpinnerPrefixPanicsOnLongLabel | pkg/utils/terminal.go:33 | On an 80-column terminal, a 78-rune step label makes `Spin`'s first `GetFullLine` panic. The fix gives a 79-rune line. |
| Terminal.Utf8Width | pkg/utils/terminal.go:86 | A character takes 1 to 4 bytes, and 1 exactly when it is ASCII. |
| Terminal.Utf8LengthConcat | pkg/utils/terminal.go:93-94 | The byte length of a concatenation is the sum of the byte lengths. |
| Terminal.Utf8LengthAscii | pkg/utils/terminal.go:86-94 | Byte length is at least the rune count, and equals it exactly for ASCII text. |
| Terminal.SeparatorLine | pkg/utils/terminal.go:84-102 | An empty label gives `width` separators. A label gives left pad + ` label ` + right pad, where left + byte length + 2 + right = width and right − left ∈ {0, 1}. Each form panics exactly when its repeat count would be negative. |
| Terminal.SeparatorLineFillsWidth | pkg/utils/terminal.go:93-101 | With an ASCII label the line is exactly `width` characters. |
| Fs.FileOf | pkg/utils/fs.go:19 | `Open` returns a file exactly when it opened one. |
| Fs.ErrorOf | pkg/utils/fs.go:19 | `Open`'s error is nil exactly when it opened the name, with or without a file. |
| Fs.FirstNonMissing | pkg/utils/fs.go:18-27 | The scan stops at the first filesystem not reporting NotExist, or at the end of the list. |
| Fs.FirstNonMissingIs | pkg/utils/fs.go:18-27 | That stopping point is unique. |
| Fs.OpenFileAcrossFilesystem | pkg/utils/fs.go:14-40 | The loop, with its break and early return, returns exactly `Lookup`. |
| Fs.FirstOpenWins | pkg/utils/fs.go:18-23 | The contents come from the first filesystem whose `Open` succeeds after NotExists only. |
| Fs.LaterFilesystemsIgnored | pkg/utils/fs.go:18-23 | Appending filesystems after the stopping point changes nothing. |
| Fs.NotExistMovesOn | pkg/utils/fs.go:19-27 | A filesystem reporting NotExist is passed over. |
| Fs.OtherOpenErrorStops | pkg/utils/fs.go:24-26 | Another error before any success gives "failed to open file: " + its message. |
| Fs.ReadErrorReported | pkg/utils/fs.go:35-38 | A read error after a successful open gives "failed to read file: " + its message. |
| Fs.NotFoundExactly | pkg/utils/fs.go:28-30 | "file not found in any filesystem" comes back exactly in two cases: all filesystems reported NotExist (including an empty list), or the first one that did not returned a nil file. |
| Deploy.StepTable | cmd/deploy/command.go:35-46 | Ten rows, from "Creating Docker network" to "Deploying Model", with no step function twice. |
| Deploy.RunFrom | cmd/deploy/command.go:57-63 | No more rows run than remain. A run that panics returns no error. |
| Deploy.RunFromCompletes | cmd/deploy/command.go:57-63 | A run that neither panics nor returns an error ran every remaining row, and the last came through `Spin` as nil. |
| Deploy.RunFromReturnsLastError | cmd/deploy/command.go:58-62 | An error the run returns is what `Spin` made of the last row that ran. |
| Deploy.RunFromPanicsWhere | pkg/utils/terminal.go:33-60 | A run panics only on a drawn line: the prefix line of the row after the last one that ran, or the stop line of the last one that ran. |
| Deploy.RunFromBeforePrefixPanic | pkg/utils/terminal.go:33 | No row at or after the first row whose prefix line panics ever runs. |
| Deploy.PrefixPanicsAgrees | pkg/utils/terminal.go:33 | A row's prefix panic is exactly `GetFullLine(label, "", '─', 1)` panicking, that is, label length + 2 equal to the width, whether or not the spinner then starts. |
| Terminal.StopLinePanicsAgrees | pkg/utils/terminal.go:50-62 | The stop line panics exactly when the spinner started and `GetFullLine(label, <stop text>, '─', 1)` panics. The DONE line panics when the label is 7 columns short of the width. |
| Terminal.StopWidthIsLength | pkg/utils/terminal.go:52-60 | The stop text is "DONE " (5 runes), or the error's `%v` text followed by " - SKIP " or " - FAIL " (8 runes more). |
| Deploy.RunFromInOrder | cmd/deploy/command.go:57-63 | The rows that ran are the table's rows from the start, in order, each once. |
| Deploy.RunFromPassesEarlierRows | cmd/deploy/command.go:58-62 | Every row before the last one that ran came through `Spin` as nil. |
| Deploy.RunFromStopsAtError | cmd/deploy/command.go:58-62 | A run with rows left runs a row or panics. A run that does not panic returns nil exactly when all rows ran and the last came through as nil. Otherwise it returns the error the last row let through, and no later row runs. |
| Deploy.ConfigureCaddyStep | cmd/deploy/command.go:74-94 | Updates `cfg.caddy` in place exactly as `ConfigureCaddyEffect` says. |
| Deploy.ConfigureMySqlStep | cmd/deploy/command.go:96-105 | Updates `cfg.mysql` in place exactly as `ConfigureMySqlEffect` says. |
| Deploy.ConfigureModelStep | cmd/deploy/command.go:107-115 | Updates `cfg.model` in place exactly as `ConfigureModelEffect` says. |
| Deploy.RunStep | cmd/deploy/command.go:35-46 | Each row's step function changes the configuration and the host as `StepEffect` says. |
| Deploy.RunTable | cmd/deploy/command.go:57-63 | The loop, with the lines `Spin` draws around each step, ends with the rows run, configuration and host that `RunFrom` gives. It panics when `RunFrom` panics, and otherwise returns `RunFrom`'s error or nil. |
| Deploy.FirstPanickingRow | pkg/utils/terminal.go:33 | Every row before the result has a label whose length + 2 differs from the width, so `Spin`'s prefix line for that row does not panic. A result inside the table is a row whose label length + 2 is the width, so its prefix line panics. |
| Deploy.Action | cmd/deploy/command.go:48-72 | A failed load returns its error, with no step run and nothing changed. If the "Deployment" separator panics, nothing runs. Otherwise the table runs as `RunFrom` says. A run that panics makes `action` panic. A run that returns an error makes `action` return it. A run that returns nil then panics if a closing separator panics, and returns nil if none does. |
| Deploy.TitleLengths | cmd/deploy/command.go:35-46 | Every label has at most 25 runes. The first five have 23, 17, 15, 17 and 25. |
| Deploy.OpeningCaptionLength | cmd/deploy/command.go:56 | "Deployment" is 10 bytes long. |
| Deploy.ClosingCaptionLength | cmd/deploy/command.go:65 | "Deployment finished" is 19 bytes long. |
| Deploy.WideTerminalPrefixesFit | pkg/utils/terminal.go:33 | From 28 columns on, no row's prefix line panics. |
| Deploy.WideTerminalSeparatorsFit | cmd/deploy/command.go:56-69 | From 21 columns on, none of `action`'s three separators panics. |
| Deploy.DoneLinePanicsAfterFirstStep | pkg/utils/terminal.go:59-60 | On 30 columns with a working spinner, a network step that succeeds is the only row that runs, and its DONE line panics. |
| Deploy.SkipLinePanicsOnRedeploy | pkg/utils/terminal.go:50-52 | "Configuring Caddy" skipping with "Configuration already defined" panics on its SKIP line on 56 columns and not on 57. |
| Deploy.NarrowSeparatorsPanic | cmd/deploy/command.go:56-65 | The opening separator panics on 11 columns and not on 12. The closing ones panic on 20 columns and not on 21. |
| Deploy.FifthRowPanicsAt27 | pkg/utils/terminal.go:33 | On 27 columns the prefix line of row 5, "Creating Volume Directory", is the first to panic, so at most four steps run. |
| Deploy.ConfigureSkipsWhenDefined | cmd/deploy/command.go:74-110 | A configuration step whose section is already set returns a skip and changes nothing. |
| Deploy.ConfigureInstallsDefault | cmd/deploy/command.go:79-114 | A missing section gets its default and nothing else changes. MySQL and Model return the save result. Caddy stores the prompt's answer and returns the prompt's error, else the save result. |
| Deploy.NetworkStepCases | cmd/deploy/command.go:137-152 | The checks run in this order. A listing failure gives "failed to check existing networks: " + its message. An existing network is skipped with "Network already exists". A creation failure is joined with the command's output, and it is a skip only if the failure was. Otherwise exactly the project's network is added. Directories, owners and sections never change. |
| Deploy.VolumeStepCases | cmd/deploy/command.go:269-285 | The checks run in this order. A probe error is returned as is. An existing path is skipped. A creation error is returned as is. Otherwise the directory is made, and then a chown failure is wrapped or the owner is set to the uid and gid. |
| Deploy.SkipDoesNotAbort | cmd/deploy/command.go:57-63 | With a working spinner, a row that skips is followed by the next row, unless its prefix line panics or its SKIP line does (label + message + 10 equal to the width). |
| Deploy.SkipAbortsWithoutSpinner | pkg/utils/terminal.go:33-46 | Without a working spinner, a skip ends the run with that skip as the error, unless the row's prefix line panics, and then the run panics. |
| Deploy.StepGrows | cmd/deploy/command.go:74-152 | Steps only add: a set section keeps its value, and no network or path disappears. |
| Deploy.RunFromGrows | cmd/deploy/command.go:57-63 | A whole run only adds. |
| Deploy.StepEstablishes | cmd/deploy/command.go:117-152 | A step that comes through as nil leaves its work in place: network, section or directory. This holds when no host failure is itself a skip. |
| Deploy.SuccessfulRunEstablishes | cmd/deploy/command.go:57-71 | After a run that returns nil without panicking, every row's work is in place. This holds when no host failure is itself a skip. |
| Deploy.RerunKeepsWorld | cmd/deploy/command.go:57-63 | Suppose every row's work is in place, the probes succeed, the deployment steps succeed, the spinner works and every label is at least 43 columns narrower than the terminal. Then a run returns nil without panicking and leaves the sections, networks, volume directories and owners unchanged. |
| Deploy.SuccessfulDeployment | cmd/deploy/command.go:57-71 | After `deploy` returns nil, the network exists, the Caddy, MySQL and Model sections are set, and the three volume directories exist. This holds when no host failure is itself a skip. |
| Deploy.RedeployKeepsWorld | cmd/deploy/command.go:74-135 | Start from the world a successful deployment left. On a terminal at least 68 columns wide, a second run then skips every configuration, network and volume step and returns nil. It leaves the sections, networks, volume directories and owners unchanged. |

## Left out

- YAML persistence (`SaveAs`, `LoadConfig`): saving is one outcome per configuration step, and loading is the `loadError` argument of `Deploy.Action`.
- `deployCaddy`, `deployMysql`, `deployModel`: template rendering, `docker compose up`, `bootstrapDatabaseCredentials` (SQL) and `installWordpress` (docker exec) are one abstract outcome per step, because they are Docker and MySQL client calls (utils/docker.go).
- `createMysqlVolume` and `createModelVolume` are `VolumeEffect` on the MySQL and model paths. `createVolumesDirectory` is the same code as `createVolumeDirectory`, so it is `VolumeEffect` on `VolumePath()`.
- `NetworkEffect`: the `docker network ls --filter name=…` answer is read as "a network with exactly this name exists". The listing's substring filter and `TrimSpace` are not modelled, so a second network whose name merely contains this one is outside the model.
- `VolumeEffect`: `MkdirAll` creating parent directories, and the `Stat` re-check inside `CreateDirectoryIfNotExists`, are folded into one creation outcome. Races between the probe and the creation are not modelled.
- `ConfigureCaddyStep`: the prompt's answer and its error both come from the environment, because promptui is an interactive library. The Caddy section stays set when the prompt or the save fails, as in the source.
- All printing: spinner frames, colours and stop characters; the "Prompt failed" line; the URL, user and password printed at the end of `action`. `PrintSeparator` is modelled by the text it prints (`SeparatorLine`), without the newline.
- `Spin`'s animation, colours and stop characters are not modelled. Of its drawing, only whether each `GetFullLine` call panics is: the prefix line before the step (`Deploy.PrefixPanics`) and the stop line after it (`Terminal.StopLinePanics`).
- `GetTerminalWidth` (a terminal ioctl with 80 as the fallback): the width is the `width` field of `Deploy.Environment`. The source reads the width at every call; the model assumes it does not change during a run.
- `Spin` invokes the callback exactly once on every path. The model captures this by taking that single call's result as the argument of `Terminal.Spin`.
- `GenerateSecurePassword`: the length is a `nat`. A negative length, which panics in `make`, is not modelled; every caller passes 16.
- crypto/rand and math/rand: each draw is an input (`Password.RandomSource`).
- `Password.PasswordShape`: the 65 characters of the alphabet being pairwise distinct is not proved, since no property here depends on it.
- Concurrency of the `atomic.Uint64` counter: `NextIdentifier` is modelled sequentially, because the nil-check seeding is not race-free anyway.
- Config.InstancesConfig.NextIdentifier: freshness is stated against the keys present at seeding, and only while seed + issued fits in an `int`. Keys added after seeding are never rescanned, so the source promises nothing about them.
- Deploy.RedeployKeepsWorld: the second deployment runs `deployCaddy`, `deployMysql` and `deployModel` again. Their effects on the host are not in the model's world: `docker compose up`, dropping and recreating the model database and its user, and appending two `php_value` lines to `.htaccess`. "Unchanged" therefore covers only sections, networks, volume directories and owners. The lemma also assumes that reloading `multipress.yaml` gives back the sections the first run left.
- Deploy.RerunKeepsWorld: the same limit applies. The deployment steps' host effects are outside `World`.
- Deploy.RunFrom: its own contract states only the length bound and that a panic carries no error. Order, abort, panic and result are stated by `RunFromInOrder`, `RunFromPassesEarlierRows`, `RunFromStopsAtError`, `RunFromPanicsWhere` and `RunFromBeforePrefixPanic`.
- Deploy.RerunKeepsWorld: the width condition (every label 43 columns narrower than the terminal) is sufficient, not exact. The exact widths at which a SKIP or DONE line panics are given by `Terminal.StopLinePanics`.
- Deploy.SkipDoesNotAbort: the hand-over to the next row is stated only when neither of the row's lines panics. The panicking cases are stated by `Deploy.RunFromPanicsWhere`.
- `OpenFileAcrossFilesystem`: `file.Close` is not modelled, and a file is read in one `io.ReadAll` outcome.
- `CopyFSDir` and everything in pkg/utils/files.go, utils/compress.go, utils/templates.go, utils/docker.go, cmd/down, cmd/new, pkg/app, pkg/templates and pkg/projects: these are file-system and library wrappers, interactive input or parallel teardown, and they are not part of this model.

## Findings

| source | as written | input that shows it | evidently intended | confidence | as-written member | corrected member |
|---|---|---|---|---|---|---|
| pkg/utils/terminal.go:77-79 | With `strLen < width`, `strings.Repeat(sep, width-strLen-2)` gets the count -1 when the texts are one rune short of the width, and `strings.Repeat` panics on a negative count | `Spin` on an 80-column terminal with a 78-rune label: `GetFullLine(label, "", '─', 1)` has width 79 and strLen 78 | a line one short of the width gets a single space between the texts (guard `strLen < width-1`), so every shorter text fills the width exactly | high (not executed) | Terminal.SpinnerPrefixPanicsOnLongLabel | Terminal.GetFullLineFixed |
