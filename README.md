# Proof of contribution: record check and scoring

This project models the proof-of-contribution generator of a data liquidity
pool: `Proof.generate` scans every file of the configured input directory,
decodes each as JSON, checks it against a fixed schema (`address` a string,
`unixtime` an int, `preferences` an object holding `categories`, a list, and
`likes`, an object), and keeps a single running score that every file
overwrites. From the final score it fills in the proof response: ownership,
quality, authenticity, uniqueness, score, validity, attributes and metadata.

Three modules:

- `PyJson` (`pyjson.dfy`): decoded JSON values (`Null | Bool | Int | Float |
  Str | Arr | Obj`), the exceptions that reach the scan's handler (the ones the scan singles out, plus `Other` for any further class), an `Eval`
  outcome (a value or a raised exception, usable with `:-`), and Python's
  `key in v` and `v[key]` on those values: a dict tests its keys, a list
  compares its elements, a string looks for a substring, and every other value
  raises `TypeError`.
- `RecordCheck` (`record.dfy`): the per-file check, evaluated in the source's
  order, characterised by two declarative predicates. `Conforms` says when a
  file scores 1. `Crashes` says when the check raises a `TypeError` that the
  scan does not catch.
- `ProofGeneration` (`proof.dfy`): one scan iteration (`FileOutcome`), the
  scan as a fold (`Run`) and as a loop (`Scan`), and the classes `Proof` and
  `ProofResponse`. `Proof.Generate` runs the scan and assigns the response's
  fields in place.

The directory listing, `open` and `json.load` are replaced by a parameter: a
sequence of `Entry` values, one per directory entry in listing order, each
either the decoded document or the exception the loader raised.

Behaviour kept from the code:

- `isinstance(x, int)` accepts booleans, so `"unixtime": true` passes.
- The handler catches only `JSONDecodeError`, `IOError` and `KeyError`. A
  `TypeError` escapes the scan and `generate`, and so does any other loader
  exception (such as `UnicodeDecodeError` for bytes that are not valid text).
  A `TypeError` comes from a membership test on a document that is not a
  container, or from subscripting a list or string with a key. The response
  is then left untouched.
- The type tests are joined by a short-circuiting `or`. A `preferences` list
  that holds the strings `categories` and `likes` therefore scores 0 when
  `address` is not a string. It raises when `address` and `unixtime` pass.
- The checks never raise `KeyError`, because every key is tested before it
  is subscripted (`CheckDocument` raises only `TypeError`).
- The final score is the last file's outcome, or 0 for an empty directory. It
  is not a conjunction or disjunction over the files.

An extension-only policy (score 1 for any `.json` file name) exists only as
commented-out code (`my_proof/proof.py:24-25`) and is not modelled.

## Model

| member | source | states |
|---|---|---|
| `PyJson.ContainsAll` | my_proof/proof.py:31-36 | `all(key in v for key in keys)` raises exactly when `v` is not a container and there is a key. The exception is always `TypeError`. It yields true exactly when every key is `in` `v`, and false exactly when `v` is a container missing some key |
| `PyJson.SubstringIff` | my_proof/proof.py:31-36 | Python's `key in s` on a string document or `preferences` string holds exactly when `key` occurs in `s` at some position |
| `RecordCheck.CheckDocument` | my_proof/proof.py:30-51 | The outcome is 0 or 1 or a raise. It is 1 exactly when the document conforms to the schema (extra keys allowed, booleans count as ints). It raises exactly on the `Crashes` documents, and only `TypeError`, never `KeyError` |
| `RecordCheck.ExtraTopLevelKeyIgnored` | my_proof/proof.py:31 | Adding or changing a top-level key outside the three required ones leaves the outcome unchanged |
| `RecordCheck.ExtraPreferenceKeyIgnored` | my_proof/proof.py:36 | Adding or changing a `preferences` key other than `categories` and `likes` leaves the outcome unchanged |
| `RecordCheck.TimestampTypes` | my_proof/proof.py:42-45 | In any conforming record, replacing `unixtime` by any value scores 1 exactly when that value is an int or a bool; every other value (float, string, null, list, object) scores 0 |
| `RecordCheck.ScalarDocument` | my_proof/proof.py:31 | Every null, bool, int or float document raises `TypeError` at the first key test |
| `RecordCheck.ListDocument` | my_proof/proof.py:31-42 | Every list document scores 0 unless it holds all three key names as string elements, and then it raises `TypeError` |
| `RecordCheck.StringDocument` | my_proof/proof.py:31-42 | Every string document scores 0 unless all three key names occur in it as substrings, and then it raises `TypeError` |
| `ProofGeneration.FileOutcome` | my_proof/proof.py:26-55 | One iteration scores 0 or 1 or raises. It scores 1 exactly when the entry decoded to a conforming document. It raises exactly when the loader raised an exception outside `JSONDecodeError`/`IOError`/`KeyError`, or when the document crashes the check. The exception raised is the loader's own, or `TypeError` from the check |
| `ProofGeneration.RunCharacterized` | my_proof/proof.py:19-55 | The scan completes exactly when no entry escapes. It then yields the last entry's score, or the initial score for an empty listing. Otherwise it raises the first escaping entry's exception |
| `ProofGeneration.Scan` | my_proof/proof.py:19-55 | The loop equals the fold `Run` from score 0. It completes exactly when no entry escapes, with the last entry's score (0 when empty), always 0 or 1. Otherwise it raises the first escaping entry's exception. Invariants: the running score is the last scanned entry's score and stays in {0, 1} |
| `ProofGeneration.ReorderBeforeLast` | my_proof/proof.py:22-55 | Any reordering that keeps the last entry in place changes neither whether the scan completes nor the final score |
| `ProofGeneration.SwapBeforeLast` | my_proof/proof.py:22-55 | Swapping two entries that are not the last changes neither whether the scan completes nor the final score |
| `ProofGeneration.LastFileDecides` | my_proof/proof.py:22-55 | For any conforming document and any document that fails the check without raising: the good one then the bad one scores 0, the other order scores 1 |
| `ProofGeneration.ProofResponse.constructor` | my_proof/proof.py:14 | The response is created carrying the given pool id |
| `ProofGeneration.Proof.constructor` | my_proof/proof.py:12-14 | Keeps the configuration and creates a fresh response carrying the configuration's pool id |
| `ProofGeneration.Proof.Generate` | my_proof/proof.py:17-78 | It returns the response exactly when no entry escapes; otherwise it raises the first escaping entry's exception and leaves the response unchanged. On return, ownership and quality equal the final score, and authenticity and uniqueness are 0. `score = 0.6*quality + 0.4*ownership`, which equals the final score. `valid` holds iff the final score is at least 0.2, that is iff it is 1. `attributes` is exactly `{total_score, score_threshold = 0.2}`, `metadata` is exactly `{dlp_id}` from the configuration, and the pool id is unchanged |

## Left out

- `fetch_random_number` (`my_proof/proof.py:81-88`): an HTTP request with a fallback to an unseeded random number. It is network I/O and randomness, and nothing in the result depends on it.
- Directory listing, `os.path.join`, `open` and `json.load` are a parameter of `Generate`: the decoded entries in listing order. The listing order is platform-dependent and the decoder is a library.
- Logging calls: side effects only.
- The response class (`my_proof/models/proof_response.py`) is not part of this model. Its field defaults and serialisation are unknown here, so before `Generate` only the pool id is known. All scores are typed `real`.
- Floating point: `0.2`, `0.6` and `0.4` are exact reals. For the only inputs that occur (0 and 1), the double-precision results are the same: `0.6 + 0.4` rounds to exactly `1.0`.
- Missing configuration keys and a missing input directory raise before any result exists. The `Config` datatype always has both fields, and the listing is given.
- `ProofGeneration.ReorderBeforeLast`: says nothing about which exception escapes when the scan raises, because reordering two entries that raise different exceptions changes which one comes first.
- `ProofGeneration.Proof.constructor`: the configuration is an immutable `Config` value with an `int` pool id. The source keeps a reference to the caller's dict of arbitrary values and reads `dlp_id` and `input_dir` from it again when `generate` runs. A caller that changes the dict between construction and `generate` would get a `metadata` pool id that differs from the response's own; the model cannot express that and always has them equal.
- Decoded values the model cannot hold: `Float` is a real, so the `NaN` and `Infinity` literals `json.load` accepts have no model value, and a Dafny `string` cannot hold the lone surrogates that an escape such as `\ud800` decodes to. The scores and exceptions are unaffected. The check looks only at types and at whether the ASCII key names occur. A document holding such a value therefore has the same outcome as the same document with that value replaced by a representable one of the same type that contains the same key names.
