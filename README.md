# ISO builder logic, modelled in Dafny

This project models `ISOBuilderLogic`, the business logic behind ISO image
builds in the Oreon build system (a Copr fork). The logic:

- queues a build: marks it pending, stamps its submission time and gives it a
  task identifier `iso-<id>-<seconds>`;
- cancels a pending or running build;
- reads a build's log, from the stored column or from `build.log` in its
  result directory;
- lists kickstart templates, and looks one up by name (stored templates
  first, then the three built-in ones);
- validates a kickstart document line by line;
- assembles the `livemedia-creator` argument vector;
- estimates the build time in minutes.

Modules:

- `Wrappers`: `Option` and `Result`.
- `PyText`: the Python `str` operations the logic depends on, with CPython's
  meaning. These are `isspace`, `strip`, `startswith`, `split`, `join`,
  `lower`, the substring test `in`, and `str()` of an integer.
- `Models`: the build and template records.
  - A build row is the class `ISOBuild`. Its lifecycle columns are fields
    assigned in place.
  - The field `committed` holds the columns as the database last stored
    them. `Commit` and `Rollback` model `db.session.commit()` and
    `db.session.rollback()`.
- `Lifecycle`: `queue_build`, `cancel_build`, `get_build_logs`.
- `KickstartValidator`: `validate_kickstart`.
- `CommandBuilder`: `create_livemedia_command`.
- `TemplateCatalog`: `_get_builtin_templates`, `get_kickstart_templates`,
  `get_kickstart_template`.
- `BuildTimeEstimator`: `estimate_build_time`.

The environment becomes parameters:

- the clock: `now`, and `seconds` for the second reading that goes into the
  task identifier;
- whether the database commit succeeds: `commitOk`;
- the template table: `Option<seq<TemplateRecord>>`, where `None` means the
  query raised;
- the files under the result directory: a map from path to what reading that
  path gives;
- the name the operating system picks for the temporary kickstart file:
  `tempName`.

Two behaviours of the code are easy to miss:

- `queue_build` checks no status. Re-queueing a finished build leaves it
  pending with its old `ended_on` (`Lifecycle.QueuedConsistentIff`).
- `queue_build` overwrites any earlier `task_id`.

## Model

| member | source | states |
|---|---|---|
| PyText.LeadingSpacesSpec | frontend/coprs_frontend/coprs/logic/iso_builder.py:189 | `lstrip` cuts a run of whitespace that ends at a non-whitespace character or at the end of the text |
| PyText.TrailingSpacesSpec | frontend/coprs_frontend/coprs/logic/iso_builder.py:189 | `rstrip` cuts a run of whitespace that starts after a non-whitespace character or at the start of the text |
| PyText.StripEmptyIff | frontend/coprs_frontend/coprs/logic/iso_builder.py:189 | `not content.strip()` holds exactly when every character is whitespace |
| PyText.StripTrimmed | frontend/coprs_frontend/coprs/logic/iso_builder.py:201 | a stripped line is empty or has no whitespace at either end |
| PyText.FirstWord | frontend/coprs_frontend/coprs/logic/iso_builder.py:203 | `split()[0]` of a stripped line is a prefix of the line |
| PyText.FirstWordNoSpace | frontend/coprs_frontend/coprs/logic/iso_builder.py:203 | the first word holds no whitespace and ends at whitespace or at the end of the line |
| PyText.Split | frontend/coprs_frontend/coprs/logic/iso_builder.py:194 | `split('\n')` gives at least one piece |
| PyText.SplitPiecesHaveNoSeparator | frontend/coprs_frontend/coprs/logic/iso_builder.py:194 | no piece of `split('\n')` holds the separator |
| PyText.SplitCount | frontend/coprs_frontend/coprs/logic/iso_builder.py:194 | there is one more piece than the text has separators |
| PyText.SplitJoin | frontend/coprs_frontend/coprs/logic/iso_builder.py:194 | joining the pieces with the separator gives back the text |
| PyText.ContainsIff | frontend/coprs_frontend/coprs/logic/iso_builder.py:439-447 | the substring test `in` holds exactly when the needle occurs at some position |
| PyText.ContainsAppend | frontend/coprs_frontend/coprs/logic/iso_builder.py:439-447 | a substring of `a` is a substring of `a + b` |
| PyText.ContainsAcrossLineBreak | frontend/coprs_frontend/coprs/logic/iso_builder.py:439-447 | a line-break-free substring of `a + b`, where `a` ends a line, is a substring of `a` or of `b` |
| PyText.ContainsPrepend | frontend/coprs_frontend/coprs/logic/iso_builder.py:439-447 | a substring of `b` is a substring of `a + b` |
| PyText.Lower | frontend/coprs_frontend/coprs/logic/iso_builder.py:439 | `lower()` keeps the length |
| PyText.LowerAppend | frontend/coprs_frontend/coprs/logic/iso_builder.py:439 | lower-casing commutes with concatenation |
| PyText.NatToString | frontend/coprs_frontend/coprs/logic/iso_builder.py:43 | `str(n)` is non-empty |
| PyText.NatToStringDigits | frontend/coprs_frontend/coprs/logic/iso_builder.py:43 | `str(n)` is made of decimal digits |
| PyText.IntToString | frontend/coprs_frontend/coprs/logic/iso_builder.py:286 | `str(i)` is non-empty |
| PyText.NatToStringRoundTrip | frontend/coprs_frontend/coprs/logic/iso_builder.py:43 | reading back the digits of `str(n)` gives `n` |
| PyText.NatToStringNoLeadingZero | frontend/coprs_frontend/coprs/logic/iso_builder.py:43 | `str(n)` begins with a zero only for zero, so it is the canonical spelling |
| PyText.NatToStringInjective | frontend/coprs_frontend/coprs/logic/iso_builder.py:43 | distinct natural numbers print differently |
| PyText.IntToStringInjective | frontend/coprs_frontend/coprs/logic/iso_builder.py:43 | distinct integers, negative ones included, print differently |
| Models.ISOBuild.Load | frontend/coprs_frontend/coprs/logic/iso_builder.py:27 | a build as loaded from the database: its columns agree with the stored row |
| Models.ISOBuild.Commit | frontend/coprs_frontend/coprs/logic/iso_builder.py:47 | after a commit the database stores the object's current columns |
| Models.ISOBuild.Rollback | frontend/coprs_frontend/coprs/logic/iso_builder.py:54 | after a rollback the lifecycle columns are the stored ones again |
| Lifecycle.TaskIdInjective | frontend/coprs_frontend/coprs/logic/iso_builder.py:43 | two task identifiers are equal only for the same build id and the same second |
| Lifecycle.TaskIdMentions | frontend/coprs_frontend/coprs/logic/iso_builder.py:43 | the task identifier contains the build id and the timestamp |
| Lifecycle.QueuedConsistentIff | frontend/coprs_frontend/coprs/logic/iso_builder.py:37-43 | after queueing, `ended_on` is set exactly when the status is terminal if and only if the build had no `ended_on` before, because there is no status guard |
| Lifecycle.CanceledConsistent | frontend/coprs_frontend/coprs/logic/iso_builder.py:73-75 | a cancelled row is terminal and has an end time |
| Lifecycle.CancelKeepsQueueStamp | frontend/coprs_frontend/coprs/logic/iso_builder.py:68-77 | cancelling leaves the submission time and the task identifier as they were |
| Lifecycle.QueueBuild | frontend/coprs_frontend/coprs/logic/iso_builder.py:37-55 | the answer is the commit's outcome. On success the row is pending, stamped with `now` and the task identifier, and committed. On failure the row is rolled back to what the database stores |
| Lifecycle.CancelBuild | frontend/coprs_frontend/coprs/logic/iso_builder.py:68-85 | the answer is true exactly when the build was pending or running and the commit succeeded. On success the row is canceled with `ended_on` and the message, and committed. Otherwise it is rolled back, so a finished build keeps its status and end time |
| Lifecycle.LogFilePath | frontend/coprs_frontend/coprs/logic/iso_builder.py:104 | `os.path.join(dir, 'build.log')` begins with `dir` and ends with `/build.log` |
| Lifecycle.GetBuildLogs | frontend/coprs_frontend/coprs/logic/iso_builder.py:98-113 | the stored log when non-empty. Otherwise the log file's text, or its read error prefixed by "Error reading logs: ". Otherwise "No logs available yet." |
| KickstartValidator.FirstWordIsDirective | frontend/coprs_frontend/coprs/logic/iso_builder.py:202-203 | the first word of a `%` line begins with `%` and holds no whitespace |
| KickstartValidator.SectionsShape | frontend/coprs_frontend/coprs/logic/iso_builder.py:200-204 | every found section is a directive word, and there are no more sections than lines |
| KickstartValidator.SectionOfLineFound | frontend/coprs_frontend/coprs/logic/iso_builder.py:200-204 | the first word of every `%` line is among the found sections |
| KickstartValidator.FoundSectionHasLine | frontend/coprs_frontend/coprs/logic/iso_builder.py:200-204 | every found section comes from a `%` line, whose position the lemma returns |
| KickstartValidator.NoDirectiveNoSections | frontend/coprs_frontend/coprs/logic/iso_builder.py:200-212 | a kickstart with no `%` line has no sections, so `%end` and `%packages` are missing |
| KickstartValidator.CompleteKickstartNoWarnings | frontend/coprs_frontend/coprs/logic/iso_builder.py:207-222 | a `%packages` line, a `url`/`repo` line and a `rootpw`/`user` line together silence every warning |
| KickstartValidator.HasLineStartingWith | frontend/coprs_frontend/coprs/logic/iso_builder.py:215-220 | the scan answers true exactly when some stripped line starts with one of the two prefixes |
| KickstartValidator.ScanSections | frontend/coprs_frontend/coprs/logic/iso_builder.py:198-204 | the loop collects the directive of every `%` line, in line order |
| KickstartValidator.CollectWarnings | frontend/coprs_frontend/coprs/logic/iso_builder.py:207-222 | given the found sections, the packages, repository and authentication warnings, each present exactly when its check fails, in that order |
| KickstartValidator.ValidateKickstart | frontend/coprs_frontend/coprs/logic/iso_builder.py:181-227 | whitespace-only content gives only the "empty" error. Otherwise the content is valid exactly when `%end` is a found section, with the matching error, the warnings, a line count of newlines plus one, and the sections joined by ", " |
| CommandBuilder.ArgvStartsWithKickstart | frontend/coprs_frontend/coprs/logic/iso_builder.py:248-260 | the vector has at least ten entries and begins `livemedia-creator --make-iso --ks <file>` |
| CommandBuilder.ArgvEndsWithRam | frontend/coprs_frontend/coprs/logic/iso_builder.py:284-286 | the vector ends with `--ram` and the memory option |
| CommandBuilder.DefaultRam | frontend/coprs_frontend/coprs/logic/iso_builder.py:285-286 | without a `memory` option the RAM size is `2048` |
| CommandBuilder.OtherFlagsAreNotKickstart | frontend/coprs_frontend/coprs/logic/iso_builder.py:248-286 | none of the builder's other flags is `--ks` |
| CommandBuilder.TailHasNoKickstartFlag | frontend/coprs_frontend/coprs/logic/iso_builder.py:262-286 | after the kickstart pair no entry is `--ks`, unless a value placed there is that text |
| CommandBuilder.OtherFlagsAreNotResultDir | frontend/coprs_frontend/coprs/logic/iso_builder.py:248-286 | none of the builder's other flags is `--resultdir` |
| CommandBuilder.KickstartFlagOnce | frontend/coprs_frontend/coprs/logic/iso_builder.py:248-286 | `--ks` is at position 2 and at no other position, unless a value placed in the vector is that text |
| CommandBuilder.IsoOnlyCommandExample | frontend/coprs_frontend/coprs/logic/iso_builder.py:248-288 | the full vector for an ISO-only build with 4096 MB and no result directory |
| CommandBuilder.ResultDirFlagIff | frontend/coprs_frontend/coprs/logic/iso_builder.py:280-282 | `--resultdir` is in the vector exactly when a result directory is assigned |
| CommandBuilder.AppendBootFlags | frontend/coprs_frontend/coprs/logic/iso_builder.py:265-272 | appends `--iso-only`, `--no-virt` and `--nomacboot`, in that order, each only when its option is truthy |
| CommandBuilder.AppendArgvTail | frontend/coprs_frontend/coprs/logic/iso_builder.py:262-286 | appends the boot flags, volume id, release, result directory when assigned, and RAM size |
| CommandBuilder.CreateLivemediaCommand | frontend/coprs_frontend/coprs/logic/iso_builder.py:248-288 | with a kickstart path, writes nothing and refers to the path. Otherwise writes the content to the fresh temporary file and refers to that file. A missing content raises after the empty file was created. The vector is `Argv` |
| TemplateCatalog.BuiltinTemplatesShape | frontend/coprs_frontend/coprs/logic/iso_builder.py:298-420 | three built-ins with distinct names oreon-minimal, oreon-desktop, oreon-server. All are official, all support x86_64, all default to release 10 |
| TemplateCatalog.PublicEntriesIff | frontend/coprs_frontend/coprs/logic/iso_builder.py:127-129 | the listed stored entries are exactly the public rows, without content |
| TemplateCatalog.AllPublicAllListed | frontend/coprs_frontend/coprs/logic/iso_builder.py:127-129 | every row is listed exactly when every row is public |
| TemplateCatalog.GetKickstartTemplates | frontend/coprs_frontend/coprs/logic/iso_builder.py:123-139 | the public rows in table order, then the three built-ins. A failing query gives the empty list |
| TemplateCatalog.ListingKeepsBoth | frontend/coprs_frontend/coprs/logic/iso_builder.py:127-135 | a public row is listed even when it shares a built-in's name; nothing is deduplicated and the built-ins come last |
| TemplateCatalog.FirstIndexOf | frontend/coprs_frontend/coprs/logic/iso_builder.py:160-162 | the first position holding the name, or the length when no position does |
| TemplateCatalog.GetKickstartTemplate | frontend/coprs_frontend/coprs/logic/iso_builder.py:152-168 | whatever it returns has the requested name |
| TemplateCatalog.StoredTemplateFirst | frontend/coprs_frontend/coprs/logic/iso_builder.py:154-156 | the first stored row with the name is returned with its content, whatever its visibility and whatever the built-ins hold |
| TemplateCatalog.BuiltinFallback | frontend/coprs_frontend/coprs/logic/iso_builder.py:159-162 | with no stored row of that name, the built-in of that name is returned |
| TemplateCatalog.LookupNoneIff | frontend/coprs_frontend/coprs/logic/iso_builder.py:152-168 | nothing is found exactly when the query fails, or when neither the table nor the built-ins hold the name |
| TemplateCatalog.ListedTemplatesCanBeFetched | frontend/coprs_frontend/coprs/logic/iso_builder.py:123-168 | every listed template can be fetched by its name |
| BuildTimeEstimator.AnyKeywordIn | frontend/coprs_frontend/coprs/logic/iso_builder.py:439 | the `any(...)` scan answers true exactly when some keyword occurs |
| BuildTimeEstimator.EstimateBuildTime | frontend/coprs_frontend/coprs/logic/iso_builder.py:433-454 | 30 + 45·[desktop keyword] + 20·[development] + 15·[multimedia] + 10·[aarch64 or armhfp], on the lower-cased content (missing content is empty). The result lies between 30 and 120 |
| BuildTimeEstimator.EstimateBounds | frontend/coprs_frontend/coprs/logic/iso_builder.py:433-454 | the estimate lies between 30 and 120, and is 30 exactly when no check passes |
| BuildTimeEstimator.EstimateMonotone | frontend/coprs_frontend/coprs/logic/iso_builder.py:436-447 | adding text before or after a whole kickstart never lowers its estimate |
| BuildTimeEstimator.InsertLineMonotone | frontend/coprs_frontend/coprs/logic/iso_builder.py:436-447 | inserting text at the start of any line, such as a package line inside `%packages`, never lowers the estimate |
| BuildTimeEstimator.LowerIdempotent | frontend/coprs_frontend/coprs/logic/iso_builder.py:439 | lower-casing twice is lower-casing once |
| BuildTimeEstimator.EstimateIgnoresCase | frontend/coprs_frontend/coprs/logic/iso_builder.py:439-447 | a kickstart and its lower-cased copy get the same estimate |
| BuildTimeEstimator.SlowArchitectureAddsTen | frontend/coprs_frontend/coprs/logic/iso_builder.py:451-452 | aarch64 and armhfp each add exactly ten minutes over x86_64 for the same kickstart |
| BuildTimeEstimator.SlowArchitectureNeverLower | frontend/coprs_frontend/coprs/logic/iso_builder.py:451-452 | moving a kickstart to `aarch64` or `armhfp` from any architecture never lowers the estimate |

## Left out

- Logging (`app.logger`) is omitted. The `except` branches that only log are kept as the fallback value they return.
- The unused `subprocess` import has nothing to model.
- The ORM session is modelled only for the five lifecycle columns that `queue_build` and `cancel_build` write. The other columns are not rolled back.
- Why a commit fails is not modelled; its outcome is the parameter `commitOk`.
- The two clock readings in `queue_build` are separate parameters: `datetime.utcnow()` for `submitted_on`, and `int(datetime.utcnow().timestamp())` for the task identifier. Their relation is not modelled.
- Status values outside the five known ones cannot be represented.
- `ISOTemplate.to_dict` lives in `models.py`, which is not part of this model. A stored template dictionary is the row plus a flag that says whether it carries the kickstart content.
- `models.py` is not part of this model, so what `build_options_dict` does with malformed JSON is not modelled. The options are a map from keys to scalar JSON values (null, boolean, integer, string); lists, objects and floats are left out.
- `PyText.Lower`: only ASCII letters are lower-cased. Unicode case mapping is left out, so a non-ASCII spelling of a keyword is not recognised as CPython would.
- `KickstartValidator.ValidateKickstart`: the content is always a string, so the `except` path ("Validation failed: ...") cannot be reached; it would need a non-string argument.
- The built-in kickstart texts are kept character for character in `TemplateCatalog.KickstartText`. A built-in template refers to its text by an enumeration value rather than holding the string. Nothing is proved about what the texts say, for example that they pass `validate_kickstart`.
- `Lifecycle.GetBuildLogs`: the filesystem is a map from path to what reading gives. Text decoding (UTF-8) and exceptions raised before the file read are not distinguished.
- `CommandBuilder.CreateLivemediaCommand`: the temporary file's name is a parameter, and its `.ks` suffix is not modelled. The file stays on disk (`delete=False`), and the model returns it as a value. A missing `kickstart_content` makes the write raise `TypeError`, which the model returns as `Failure`.
- `CommandBuilder.KickstartFlagOnce`: holds only when no value placed in the vector (kickstart file, volume id, release, result directory, memory) is itself the text `--ks`, since the source does not check for that.
- `CommandBuilder.ResultDirFlagIff`: holds under the same condition for the text `--resultdir`.
