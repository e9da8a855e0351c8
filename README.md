# name2date core in Dafny

name2date sets a media file's modification time from the timestamp that a
camera wrote into its name. This project models the two parts of `main.py`
that decide what happens:

- `parse_filename` looks for a Pixel-camera token
  (`PXL_YYYYMMDD_HHMMSSmmm`) anywhere in a file name. Only if there is none,
  it looks for an `lv_0_` token (`lv_0_YYYYMMDDHHMMSS`). It turns the
  digit groups of the leftmost match into a UTC `datetime`, and returns
  `None` when neither token occurs.
- `process_directory` walks the files of five extension patterns. It parses
  each base name, and counts a success when a timestamp was found and
  applied, and a failure otherwise.

Modules:

- `Calendar` (`calendar.dfy`): the checks the `datetime(...)` constructor
  makes, in the order it makes them. These are year 1..9999, month 1..12,
  the day within the month's length under the 4/100/400 leap rule, hour
  0..23, minute and second 0..59, and microsecond 0..999999.
- `FilenameParser` (`filename_parser.dfy`): the leftmost unanchored search
  for each token layout, reading the digit groups as integers, and the
  priority of PXL over lv. The result has three cases: `Found(dt)`,
  `NotFound` (the `None` return) and `Invalid(error)`. `Invalid` is the
  `ValueError` the constructor raises when a well-formed token holds an
  out-of-range field. `Token` writes the token a camera would produce for a
  timestamp. It is the inverse the parser's round-trip lemmas are stated
  against.
- `DirectoryProcessor` (`directory_processor.dfy`): the nested counting
  loops as methods, proved equal to a left fold `Scan` over the
  concatenated listing. `ProcessDirectory` is the outer loop over the five
  patterns. `ProcessFiles` is the inner loop over one pattern's files; it
  takes the counts so far and returns the counts after those files. The
  fold's properties are proved as lemmas.
- `Wrappers` (`wrappers.dfy`): `Option`, the result of one search.

Out-of-range digits are not turned into `None`. The digit groups go
unchecked to `datetime(...)` (`main.py:43`, `main.py:53`), which raises
`ValueError`. Nothing catches it: there is no `try` in `parse_filename` and
none around the call at `main.py:107`. So one such file ends the whole
directory scan. `ParseFilename` returns `Invalid` for it, and
`ProcessDirectory` returns `Aborted(name, error)` instead of a tally.

## Model

| member | source | states |
|---|---|---|
| Calendar.DaysInMonth | main.py:43 | month lengths are 28..31, and a month has 29 days exactly when it is February of a 4/100/400 leap year |
| Calendar.YearLength | main.py:43 | the month lengths add up to 366 days in a leap year and 365 otherwise |
| Calendar.NewDateTime | main.py:43 | the `datetime(...)` constructor builds the value exactly when every field is in range, with the given fields; otherwise it raises for a check that fails, and every check made before it passes |
| Calendar.ValidIffAllPass | main.py:43 | a timestamp is valid exactly when it passes each of the constructor's seven checks |
| FilenameParser.DecimalValue | main.py:41 | `int()` of a digit group of length k is below 10^k |
| FilenameParser.PaddedRoundTrip | main.py:41 | reading the zero-padded digits of n back with `int()` gives n |
| FilenameParser.DecimalRoundTrip | main.py:41 | writing `int()` of a digit string back, zero-padded to its length, gives the string |
| FilenameParser.Group | main.py:41 | `int()` of a capture group k digits wide is below 10^k |
| FilenameParser.WindowFields | main.py:41-53 | the arguments passed to `datetime(...)` for a matched window fit its digit widths; the microsecond is the millisecond group times 1000 for PXL (lines 41-43) and 0 for lv (lines 51-53) |
| FilenameParser.WindowMatchesIffToken | main.py:37-47 | a window of the token's length (22 for PXL, line 37; 19 for lv, line 47) matches the pattern exactly when it is the token of some timestamp whose fields fit the digit widths |
| FilenameParser.TokenMatches | main.py:37-47 | the token written for a timestamp matches its own pattern |
| FilenameParser.WindowWritesBack | main.py:37-53 | a matching window is the token written for the fields it reads as |
| FilenameParser.PxlWindowWritesBack | main.py:37-43 | a matching PXL window is the PXL token written for the fields it reads as |
| FilenameParser.LvWindowWritesBack | main.py:47-53 | a matching lv window is the lv token written for the fields it reads as |
| FilenameParser.GroupWritesBack | main.py:41 | a capture group's value, zero-padded to the group's width, is the group's text |
| FilenameParser.FindFrom | main.py:37-38 | `re.search` yields a position where the token matches, and no position before it matches; no result means no match anywhere from the start |
| FilenameParser.Construct | main.py:41-44 | a matched token never yields `None`: it yields the timestamp of its digit groups when they are valid, otherwise the first failing constructor check |
| FilenameParser.ParseFilename | main.py:21-56 | a returned timestamp is a valid date and time whose microsecond is a multiple of 1000 and at most 999000 |
| FilenameParser.PxlDecides | main.py:37-44 | when the leftmost PXL token is at i, the result is built from that token's groups, whatever lv token the name holds |
| FilenameParser.LvDecides | main.py:47-54 | without any PXL token, the result is built from the leftmost lv token's six groups |
| FilenameParser.NotFoundIff | main.py:56 | `None` is returned exactly when neither token occurs in the name |
| FilenameParser.SameWindow | main.py:37-38 | whether a token matches, and what it reads as, depends only on the characters it covers |
| FilenameParser.MatchUnderSuffix | main.py:38 | appending text leaves a match that ends inside the name, and its groups, unchanged |
| FilenameParser.SuffixPreserves | main.py:6-8 | appending any suffix to a name with a PXL token leaves the result unchanged, which covers the `.NIGHT`, `(N)` and `_exported_0_…` variants |
| FilenameParser.MatchUnderPrefix | main.py:38 | prepending text shifts every match by the prefix length and keeps its groups |
| FilenameParser.NoPxlStartsIn | main.py:37-38 | no PXL token starts inside a prefix without the letter `P` |
| FilenameParser.PrefixIgnored | main.py:37-44 | prepending text without the letter `P` to a name with a PXL token leaves the result unchanged |
| FilenameParser.NoPxlWithoutP | main.py:37-38 | a name without the letter `P` holds no PXL token |
| FilenameParser.Token | main.py:6-9 | the token a camera writes is 22 (PXL) or 19 (lv) characters long |
| FilenameParser.PaddedGroup | main.py:41 | a group holding the zero-padded digits of n is all digits and reads as n |
| FilenameParser.PxlLayout | main.py:37 | in text laid out as a PXL token, each capture group sits at its fixed offset |
| FilenameParser.PxlDateDigits | main.py:37-41 | the date groups of a PXL window are digits and read back as year, month and day |
| FilenameParser.PxlTimeDigits | main.py:37-43 | the time groups of a PXL window are digits and read back as hour, minute, second and microsecond / 1000 |
| FilenameParser.PxlWindow | main.py:37-43 | a window holding a timestamp's padded fields matches the PXL pattern and reads back as that timestamp |
| FilenameParser.LvLayout | main.py:47 | in text laid out as an lv token, each capture group sits at its fixed offset |
| FilenameParser.LvDateDigits | main.py:47-51 | the date groups of an lv window are digits and read back as year, month and day |
| FilenameParser.LvTimeDigits | main.py:47-51 | the time groups of an lv window are digits and read back as hour, minute and second |
| FilenameParser.LvWindow | main.py:47-53 | a window holding a timestamp's padded fields matches the lv pattern and reads back as that timestamp, with microsecond 0 |
| FilenameParser.PxlTokenReadsBack | main.py:37-43 | the PXL token written for a timestamp matches at position 0 and reads back as that timestamp |
| FilenameParser.LvTokenReadsBack | main.py:47-53 | the lv token written for a timestamp matches at position 0 and reads back as that timestamp |
| FilenameParser.PxlTokenParses | main.py:37-44 | a name that starts with the PXL token of a timestamp parses to that timestamp, whatever follows, when it is valid; otherwise it raises the first failing check |
| FilenameParser.LvTokenParses | main.py:47-54 | a name that starts with the lv token of a timestamp and holds no PXL token parses to that timestamp when it is valid; otherwise it raises the first failing check |
| FilenameParser.LvTokenWithoutP | main.py:37-47 | an lv token followed by text without the letter `P` (such as `.mp4`) holds no PXL token, so `LvTokenParses` applies to it |
| FilenameParser.LvHasNoP | main.py:47 | an lv token holds no letter `P` |
| FilenameParser.PxlWinsOverLv | main.py:37-54 | an lv token placed before a PXL token does not change the result: the PXL token wins |
| FilenameParser.ExampleYearPadding | main.py:6 | the year 2023 is written as `2023` |
| FilenameParser.ExampleDatePadding | main.py:6 | 2023-06-15 is written as `2023`, `06`, `15` |
| FilenameParser.ExampleTimePadding | main.py:6 | 14:30:22.123 is written as `14`, `30`, `22`, `123` |
| FilenameParser.ExamplePxlWindow | main.py:6 | `PXL_20230615_143022123` is a PXL token for 2023-06-15 14:30:22.123 |
| FilenameParser.ExampleLvWindow | main.py:9 | `lv_0_20230615143022` is an lv token for 2023-06-15 14:30:22 |
| FilenameParser.PxlExampleAnySuffix | main.py:6-8 | `PXL_20230615_143022123` followed by anything (`.mp4`, `(1).jpg`, …) parses to 2023-06-15 14:30:22.123000 UTC |
| FilenameParser.LvExampleAnySuffix | main.py:9 | `lv_0_20230615143022` followed by anything that leaves the name without a PXL token (`.mp4`, `.MP4`, …) parses to 2023-06-15 14:30:22 UTC with microsecond 0 |
| FilenameParser.NoTokenExample | main.py:56 | `random_video.mp4` yields `None` |
| FilenameParser.PxlTokenRaises | main.py:43 | a PXL token whose first failing constructor check is e raises exactly e |
| FilenameParser.BadDateRaises | main.py:43 | a PXL token with year 0000, a month outside 1..12 or a day past the month's end raises the matching error rather than returning `None` |
| FilenameParser.BadTimeRaises | main.py:43 | on a valid date, hour ≥ 24, minute ≥ 60 or second ≥ 60 raises the matching error |
| FilenameParser.LeapDay | main.py:43 | a token for 29 February parses exactly in leap years and raises a day error otherwise |
| DirectoryProcessor.Visit | main.py:107-118 | one file: a found timestamp whose update succeeds adds one success; a failed update or a name without a token adds one failure; an out-of-range token aborts with that name and error |
| DirectoryProcessor.ProcessDirectory | main.py:94-120 | the loop over the five patterns, from zero counts, returns exactly the fold of `Visit` over the concatenated listing, an abort included; the verbosity level does not enter the result |
| DirectoryProcessor.ProcessFiles | main.py:101-118 | the loop over one pattern's files, from the counts so far, returns exactly the fold of `Visit` over those files from those counts, an abort included |
| DirectoryProcessor.ScanAppend | main.py:100-101 | scanning one pattern's files and then the rest of the listing is scanning the concatenation; an abort in the first part ends the scan |
| DirectoryProcessor.ScanAdvances | main.py:107-118 | a scan whose first file leaves a tally continues from that tally over the other files |
| DirectoryProcessor.ScanInvalid | main.py:107 | a scan whose first file holds an out-of-range token aborts with that file's name and error |
| DirectoryProcessor.ScanCountsEveryFile | main.py:99-118 | in a completed scan, every file adds exactly one to exactly one counter, so success + failure grows by the number of files |
| DirectoryProcessor.ScanCountsSuccesses | main.py:108-110 | the success count grows by exactly the number of files whose timestamp was found and whose update returned true |
| DirectoryProcessor.ScanAbortsAtFirstInvalid | main.py:107 | a scan aborts exactly when some name holds an out-of-range token, and then it reports the first such name and its error |
| DirectoryProcessor.ScanCompletesWithoutInvalid | main.py:107 | without an out-of-range token the scan completes |
| DirectoryProcessor.TallyOfCompletedRun | main.py:96-120 | a completed run returns as successes the files updated, and as failures all other files |
| DirectoryProcessor.FlattenDocumentedListing | main.py:100-101 | a listing with three videos under `*.mp4` and one photo under `*.jpg` is visited in that order |
| DirectoryProcessor.DocumentedDirectory | main.py:94-120 | three videos (two with a token, one without) and one photo with a token, all updates succeeding, give three successes and one failure |

## Left out

- File enumeration (`glob.glob`, `os.path.join`, `os.path.basename`, `main.py:101-102`) is library I/O. The model takes the base names each pattern returned, in listing order, as the input `globbed`.
- `update_file_modification_time` (`main.py:59-79`) converts to a float timestamp and calls `os.utime`. It is a boolean oracle `updateOk(name, dt)`.
- All `print` output and `strftime` formatting (`main.py:78`, `main.py:105`, `main.py:112`, `main.py:117`, `main.py:142-152`) are operator output and are not modelled. That is the only use of `verbose`, so `ProcessDirectory` takes it and ignores it.
- `main`, the argparse command line and the `os.path.isdir` check (`main.py:123-156`) are I/O glue.
- Python's `\d` and `int()` accept non-ASCII decimal digits. The model accepts the ASCII digits `0`..`9` only.
- The docstring's claim of timezone conversion (`main.py:12`) has no code behind it. Every timestamp is UTC and is modelled as a plain record of fields.
- File times on disk, and so the effect of running the tool twice, are not modelled.
