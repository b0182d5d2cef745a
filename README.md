# Hamba, modelled in Dafny

Hamba is an in-memory key/value store whose values are kept as text. A store
(`Hamba`) holds three parallel slices: keys, values and per-entry readonly
flags. Every operation first finds the entry with a linear first-match search
(`find`). It then reads that entry: `GetAsString`, or one of the typed getters,
which parse the text and panic when it does not parse. Or it changes it:
`Add` appends, `UpdateKey`/`UpdateValue`/`UpdateAll` overwrite unless the entry
is readonly, `UpdateReadonly` overwrites the flag unconditionally, and
`Delete`/`Remove` remove the entry and shift later ones down. `checkValidType`
checks a type name against a fixed whitelist; nothing in the store calls it.

Files:

- `wrappers.dfy`: `Option`; `None` also stands for Go's `nil` error.
- `hamba.dfy`, module `Hamba`: the error values, `FirstIndex` (the meaning of
  `find`) and `Find` (its loop), `DeleteElement`, `CheckValidType`, the
  store as a value (`State`, one function per operation) and the class
  `Hamba`. The class has the three slices as `seq` fields. Its methods run
  `Find` and update the fields in place, and each is proved to produce
  exactly the `State` function's outcome.
- `properties.dfy`, module `HambaProperties`: lemmas that relate operations
  (add then get, add then delete, delete and shadowed duplicates, the readonly
  bypass, update round trips). It also has three client methods that walk the
  class through the readonly, duplicate-key and typed-read scenarios using
  only the method contracts.

The text parsers of Go's `strconv` package are parameters of the typed
getters. Each is a function from the text (and base and bit size, where Go
passes them) to `Option`, where `None` is a parse failure. A parse failure
becomes `Reply.ParseFailure`, which stands for the panic raised by `checkErr`
(hamba.go:35-39). It is kept apart from the `(value, error)` pair that
`Reply.Returned` carries.

## Model

| member | source | states |
|---|---|---|
| `Hamba.Parsed` | hamba.go:35-39 | a parse failure is the distinct `ParseFailure(text)` outcome, carrying the text; a successful parse is returned with a nil error |
| `Hamba.ToUint8` | hamba.go:162 | `uint8(value)` keeps the value modulo 2^8, so it is the identity on values below 2^8 |
| `Hamba.ToUint16` | hamba.go:174 | `uint16(value)` keeps the value modulo 2^16, so it is the identity on values below 2^16 |
| `Hamba.ToUint32` | hamba.go:186 | `uint32(value)` keeps the value modulo 2^32, so it is the identity on values below 2^32 |
| `Hamba.FirstIndex` | hamba.go:21-28 | -1 exactly when the value is absent; otherwise an index holding the value with no earlier index holding it |
| `Hamba.Find` | hamba.go:21-28 | the scanning loop returns exactly `FirstIndex`: the first match, or -1 |
| `HambaProperties.FirstIndexAt` | hamba.go:21-28 | a match with no earlier match is the index found, so only the first of duplicate keys is reachable |
| `HambaProperties.FirstIndexAppend` | hamba.go:21-28 | appending an element never moves an existing first match; the new element is found only if the value was absent |
| `Hamba.DeleteElement` | hamba.go:30-33 | length drops by one, elements before `i` stay, later elements shift down by one, and the multiset loses exactly `slice[i]` |
| `Hamba.CheckValidType` | hamba.go:41-59 | returns nil exactly for the eleven listed names (including the misspelt "unit8") and `errIsNotValidType` otherwise |
| `HambaProperties.CheckValidTypeRejectsUint8` | hamba.go:41-59 | the check as written accepts "unit8" and rejects "uint8" |
| `Hamba.CheckValidTypeIntended` | hamba.go:41-59 | the corrected check accepts a name exactly when it is the Go name of a type some getter returns |
| `HambaProperties.CheckValidTypeCorrectionIsOneName` | hamba.go:41-59 | the corrected check agrees with the check as written on every name except "unit8" and "uint8" |
| `Hamba.State.Add` | hamba.go:202-206 | the three lengths stay equal and grow by one, earlier entries are unchanged, and the new last entry is `(key, value, readonly)`; there is no error case |
| `Hamba.State.GetAsString` | hamba.go:83-91 | the value of the first entry with the key and no error, or `""` with `errIsNotExistKey` when the key is absent |
| `Hamba.State.Get` | hamba.go:70-199 | a typed getter returns the sentinel with `errIsNotExistKey` when the key is absent; otherwise the parse of the first entry's value, or a parse failure |
| `Hamba.State.UpdateKey` | hamba.go:209-221 | key absent: `errIsNotExistKey`, store unchanged; entry readonly: `errItIsReadonly`, store unchanged; otherwise only that entry's key changes |
| `Hamba.State.UpdateValue` | hamba.go:224-236 | the same error precedence as `UpdateKey`; on success only that entry's value changes |
| `Hamba.State.UpdateReadonly` | hamba.go:238-248 | key absent: `errIsNotExistKey`, store unchanged; otherwise it always succeeds, whatever the flag was, and only that entry's flag changes |
| `Hamba.State.UpdateAll` | hamba.go:250-265 | not-found first, then readonly, each leaving the store unchanged; on success only that entry changes, to the new key, value and flag together |
| `Hamba.State.Delete` | hamba.go:267-278 | key absent: `errIsNotExistKey`, store unchanged; otherwise no readonly check, the lengths drop by one, earlier entries stay and later entries shift down by one |
| `Hamba.Hamba.New` | hamba.go:61-68 | a fresh store with three empty slices |
| `Hamba.Hamba.Add` | hamba.go:201-206 | the fields become `State.Add` of the old fields |
| `Hamba.Hamba.GetAsString` | hamba.go:82-91 | returns `State.GetAsString` of the fields |
| `Hamba.Hamba.GetAsBool` | hamba.go:70-80 | `false` with `errIsNotExistKey` for a missing key; otherwise the `ParseBool` outcome of the stored text |
| `Hamba.Hamba.GetAsInt` | hamba.go:93-103 | `-1` with `errIsNotExistKey` for a missing key; otherwise the `Atoi` outcome of the stored text |
| `Hamba.Hamba.GetAsFloat32` | hamba.go:105-115 | `-1` with `errIsNotExistKey` for a missing key; otherwise the 32-bit `ParseFloat` outcome |
| `Hamba.Hamba.GetAsFloat64` | hamba.go:117-127 | `-1` with `errIsNotExistKey` for a missing key; otherwise the 64-bit `ParseFloat` outcome |
| `Hamba.Hamba.GetAsComplex64` | hamba.go:129-139 | `-1+0i` with `errIsNotExistKey` for a missing key; otherwise the 64-bit `ParseComplex` outcome |
| `Hamba.Hamba.GetAsComplex128` | hamba.go:141-151 | `-1+0i` with `errIsNotExistKey` for a missing key; otherwise the 128-bit `ParseComplex` outcome |
| `Hamba.Hamba.GetAsUint8` | hamba.go:153-163 | `0` with `errIsNotExistKey` for a missing key; otherwise `ParseUint(text, base, 8)` with its result cut to 8 bits |
| `Hamba.Hamba.GetAsUint16` | hamba.go:165-175 | `0` with `errIsNotExistKey` for a missing key; otherwise `ParseUint(text, base, 16)` with its result cut to 16 bits |
| `Hamba.Hamba.GetAsUint32` | hamba.go:177-187 | `0` with `errIsNotExistKey` for a missing key; otherwise `ParseUint(text, base, 32)` with its result cut to 32 bits |
| `Hamba.Hamba.GetAsUint64` | hamba.go:189-199 | `0` with `errIsNotExistKey` for a missing key; otherwise `ParseUint(text, base, 64)` |
| `Hamba.Hamba.UpdateKey` | hamba.go:208-221 | the fields and the returned error are exactly `State.UpdateKey` of the old fields |
| `Hamba.Hamba.UpdateValue` | hamba.go:223-236 | the fields and the returned error are exactly `State.UpdateValue` of the old fields |
| `Hamba.Hamba.UpdateReadonly` | hamba.go:238-248 | the fields and the returned error are exactly `State.UpdateReadonly` of the old fields |
| `Hamba.Hamba.UpdateAll` | hamba.go:250-265 | the fields and the returned error are exactly `State.UpdateAll` of the old fields |
| `Hamba.Hamba.Delete` | hamba.go:267-278 | the fields and the returned error are exactly `State.Delete` of the old fields |
| `Hamba.Hamba.Remove` | hamba.go:280-283 | behaves exactly as `Delete` |
| `HambaProperties.FirstIndexDeleteOther` | hamba.go:30-33 | removing an element other than the value moves the value's first match down by one if it came after the removed position, and otherwise leaves it |
| `HambaProperties.FirstIndexDeleteFirst` | hamba.go:30-33 | removing the first match leaves the next match, if any, as the first |
| `HambaProperties.GetAsStringAfterDelete` | hamba.go:268-278 | a lookup after a successful `Delete` is a lookup in the key and value slices with that position removed |
| `HambaProperties.AddThenGetAsString` | hamba.go:202-206 | after `Add`, a new key reads back its value; every other lookup is unchanged, including an existing key, which shadows the new duplicate |
| `HambaProperties.AddThenDelete` | hamba.go:268-278 | deleting a key that was just added restores the store exactly |
| `HambaProperties.DeleteKeepsOtherKeys` | hamba.go:268-278 | after `Delete`, every other key still reads back its value, although later entries moved down |
| `HambaProperties.DeleteUncoversShadowed` | hamba.go:268-278 | `Delete` removes only the first entry with the key; afterwards the next entry with that key, if any, is the one found |
| `HambaProperties.UpdateValueThenGet` | hamba.go:224-236 | a successful `UpdateValue` is seen by the next `GetAsString`; a failed one leaves the lookup as it was |
| `HambaProperties.ReadonlyBypass` | hamba.go:240-248 | clearing the readonly flag always succeeds for a present key, and `UpdateValue` then succeeds and is read back |
| `HambaProperties.UpdateKeyRoundTrip` | hamba.go:209-221 | renaming to a fresh key moves the value to that key, and renaming back restores the store |
| `HambaProperties.UpdateReadonlyRoundTrip` | hamba.go:240-248 | setting the flag and then restoring the old flag gives back the store |
| `HambaProperties.UpdateAllErrorsAsUpdateValue` | hamba.go:251-265 | for every store and key, `UpdateAll` fails exactly when `UpdateValue` would, with the same error |
| `HambaProperties.UpdateAllInSteps` | hamba.go:251-265 | for a present key whose new name does not occur at an earlier entry, a successful `UpdateAll` equals updating the value, then the key, then the flag under the new key |
| `HambaProperties.UpdateAllStepsNeedFreshKey` | hamba.go:251-265 | without that proviso the steps differ: renaming `"b"` to an existing earlier `"a"` makes the last step set the earlier entry's flag, while `UpdateAll` sets the renamed entry's |
| `HambaProperties.GetIsLookupThenParse` | hamba.go:70-199 | every typed getter is `GetAsString` followed by its parser, with the getter's own sentinel in place of `""` |
| `HambaProperties.AddThenGet` | hamba.go:94-103 | a value added under a fresh key is returned by a typed getter exactly as its parser reads it |

## Left out

- The bodies of `strconv.ParseBool`, `Atoi`, `ParseFloat`, `ParseComplex` and `ParseUint` are not part of this model. They are function parameters of the getters, so the text grammars, the base detection and the range checks are not modelled.
- Floating-point and complex values are the datatypes `Float` (finite real, the two infinities, NaN) and `Complex`. Rounding to 32 or 64 bits happens inside the opaque parser. The conversions `float32(value)` and `complex64(value)` are taken as exact, because the parser already rounded to that precision. `Finite(r)` holds a real number, so negative zero (what `ParseFloat("-0", 64)` returns) is the same value as zero, and NaN payloads are not distinguished; the parser's body is not modelled, so no getter's behaviour depends on either.
- The `panic` inside `checkErr` is the `ParseFailure` reply, which carries the text. Go's panic/recover semantics are not modelled.
- Go's `int` is taken as 64 bits wide (`Int64`).
- `uint8(value)`, `uint16(value)` and `uint32(value)` are written out as truncation modulo 2^8, 2^16 and 2^32. `ParseUint` with that bit size already rejects larger values, so with a faithful parser the truncation changes nothing.
- `append(slice[:i], slice[i+1:]...)` shares the slice's backing array. The store owns its slices, so removal is plain sequence removal and aliasing is not modelled. `DeleteElement` is generic, so it also stands for the inlined removal on the readonly slice (hamba.go:276).
- Concurrent use is out of scope; the source has no synchronisation.

## Findings

| source | as written | input that shows it | evidently intended | confidence | as-written member | corrected member |
|---|---|---|---|---|---|---|
| hamba.go:50 | the whitelist lists `"unit8"` | `checkValidType("uint8")` returns `errIsNotValidType`, but `checkValidType("unit8")` returns nil | `"uint8"`, the Go name of the type `GetAsUint8` returns, like `"uint16"` to `"uint64"` beside it | high that it is a misspelling; not executed | `HambaProperties.CheckValidTypeRejectsUint8` | `Hamba.CheckValidTypeIntended` |

`Hamba.CheckValidType` keeps the source's list, because the source exposes it
as written. Nothing in the store calls either check, so no other member depends
on the correction.
