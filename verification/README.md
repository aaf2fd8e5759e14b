# User-profile command engine, modelled in Dafny

The user-profile service keeps one profile per user: an id, a creation
time and a map from property name to a typed value. Clients change a profile
by sending commands. A command names a user, an operation (REPLACE,
INCREMENT or COLLECT) and a map of property names to raw values. The engine
(`UserProfileService`) works as an upsert:

- A command for an unknown user creates the profile from the command's
  values, taken verbatim whatever the operation.
- A command for a known user dispatches on the operation. REPLACE overwrites
  each property. INCREMENT adds to a number and starts from 0. COLLECT
  appends to a list and starts from the empty list.

Before the engine runs, the transport applies a validator
(`UserProfileCommandValidator`). The command type is parsed from text,
ignoring case (`UserProfileCommand.setType`).

The model is functional:

- The store is a `map<string, Profile>` passed in and returned.
- Every exception becomes a `Failure` that carries the Java exception's
  name and returns no store.
- A failed command therefore leaves the store exactly as it was. The Java
  mutates the fetched profile in place, so a store that shared that object
  could see a half-applied command. The model deliberately takes the reading
  in which the final `put` is never reached and nothing is written.

Java's hash-map iteration order is unspecified, so the engine takes the
order as a parameter `order`. It must list the command's property names,
each once. The model proves three things about it:

- whether a command succeeds does not depend on the order;
- what a successful command stores does not depend on the order;
- a failure is always the failure of one of the entries.

Modules, one per file:

- `Results`: `Option`, `Result` and the error kinds `NotFound`,
  `IllegalArgument`, `ClassCast` and `NullPointer`.
- `PropertyValues`: raw values and the wrapped `PropertyValue`.
- `Commands`: the command object, the command type and its parser.
- `TextForms`: Java's `toString` of a raw value, and `Integer.parseInt`.
- `Validation`: the validator.
- `Profiles`: the profile and the store.
- `PropertyUpdates`: the per-property rules and the entry loop.
- `ProfileService`: `get` and `processCommands`.
- `Admission`: how the validator's verdict relates to the engine.

The Java empty-id check compares with `==`, which is a reference
comparison. The model reads it as the emptiness check the tests expect:
`|userId| == 0`.

## Model

| member | source | states |
|---|---|---|
| ProfileService.Get | src/main/java/com/spotlight/platform/userprofile/api/core/profile/UserProfileService.java:28-30 | `get` succeeds exactly when the id is stored and then returns that profile unchanged; otherwise it fails with NotFound |
| ProfileService.ProcessCommands | src/main/java/com/spotlight/platform/userprofile/api/core/profile/UserProfileService.java:32-64 | an empty user id fails with IllegalArgument whatever the store holds, before any read; the engine never raises NotFound, because it upserts |
| ProfileService.UpdateProfile | src/main/java/com/spotlight/platform/userprofile/api/core/profile/UserProfileService.java:66-140 | the update of a known profile can only fail with IllegalArgument or ClassCast |
| ProfileService.ProcessCommandsFrame | src/main/java/com/spotlight/platform/userprofile/api/core/profile/UserProfileService.java:36-62 | a successful command keeps the store well keyed, adds at most its own user and leaves every other profile untouched; afterwards `get` finds the user; an existing profile keeps its creation time, and a new one is stamped with the clock reading |
| ProfileService.CreatesVerbatim | src/main/java/com/spotlight/platform/userprofile/api/core/profile/UserProfileService.java:37-46 | for an unknown user the new profile has the command's id, the clock reading and exactly the wrapped command entries, whatever the command type |
| ProfileService.ExistingProfileOutcome | src/main/java/com/spotlight/platform/userprofile/api/core/profile/UserProfileService.java:48-62 | for a known user, success means every entry accepts its update; the result is then the order-free expected map; a failure is the failure of one entry |
| ProfileService.ReplaceOverwrites | src/main/java/com/spotlight/platform/userprofile/api/core/profile/UserProfileService.java:66-76 | REPLACE sets each named property to the wrapped incoming value, whatever its old type; other properties, the id and the creation time are kept |
| ProfileService.IncrementAdds | src/main/java/com/spotlight/platform/userprofile/api/core/profile/UserProfileService.java:78-109 | INCREMENT succeeds iff each named property is stored as a number or absent and each incoming value is a number; it stores old + delta, counting absent as 0; a stored non-number gives IllegalArgument and an incoming non-number gives ClassCast |
| ProfileService.IncrementRejectsStoredNonNumber | src/main/java/com/spotlight/platform/userprofile/api/core/profile/UserProfileService.java:89-91 | INCREMENT naming a stored non-number fails, so the final put is never reached; the failure is IllegalArgument whenever every incoming value whose property is stored as a number or absent is a number, whatever the entry meeting the stored non-number brings |
| ProfileService.CollectAppends | src/main/java/com/spotlight/platform/userprofile/api/core/profile/UserProfileService.java:111-140 | COLLECT succeeds iff each named property is stored as a list or absent and each incoming value is a list; it stores old list ++ incoming list, in order with duplicates, counting absent as the empty list |
| ProfileService.CollectChecksStoredFirst | src/main/java/com/spotlight/platform/userprofile/api/core/profile/UserProfileService.java:118-128 | a one-entry COLLECT fails with IllegalArgument on a stored non-list whatever arrives; only past that check does an incoming non-list fail with ClassCast |
| ProfileService.OrderIrrelevant | src/main/java/com/spotlight/platform/userprofile/api/core/profile/UserProfileService.java:69-73 | two iteration orders of the same command agree on whether it succeeds, and on the store it produces when it does |
| ProfileService.ReplaceIdempotent | src/main/java/com/spotlight/platform/userprofile/api/core/profile/UserProfileService.java:66-76 | applying a REPLACE twice gives the same store as applying it once; it always succeeds for a non-empty id |
| ProfileService.IncrementCumulative | src/main/java/com/spotlight/platform/userprofile/api/core/profile/UserProfileService.java:83-102 | in the model's exact integer arithmetic, incrementing by a and then by b equals incrementing by a + b from the same store, and both fail alike (the source's 32-bit saturation breaks this; see "## Left out") |
| ProfileService.CollectCumulative | src/main/java/com/spotlight/platform/userprofile/api/core/profile/UserProfileService.java:116-136 | collecting xs and then ys equals collecting xs ++ ys from the same store, and both fail alike |
| ProfileService.IncrementOnStoredWordScenario | src/test/java/com/spotlight/platform/userprofile/api/web/resources/profile/UserProfileServiceTest.java:305-326 | with questsNotCompleted stored as "new", INCREMENT {battleFought: 10, questsNotCompleted: "new"} fails with IllegalArgument, whichever iteration order is used |
| ProfileService.IncrementScenario | src/test/java/com/spotlight/platform/userprofile/api/core/profile/UserProfileServiceTest.java:82-107 | {battleFought: 10, questsNotCompleted: 1} incremented by {20, -1} becomes {30, 0}, whichever iteration order is used |
| ProfileService.CollectScenario | src/test/java/com/spotlight/platform/userprofile/api/web/resources/profile/UserProfileServiceTest.java:155-186 | an inventory [sword1, sword2, shield1] collecting [shield2] becomes [sword1, sword2, shield1, shield2] |
| PropertyUpdates.Update | src/main/java/com/spotlight/platform/userprofile/api/core/profile/UserProfileService.java:83-102 | one property's new value: REPLACE wraps the incoming value; INCREMENT and COLLECT check the starting value's kind (IllegalArgument), then the incoming value's kind (ClassCast), then add or append |
| PropertyUpdates.ApplyInOrder | src/main/java/com/spotlight/platform/userprofile/api/core/profile/UserProfileService.java:69-73 | the entry loop fails only with IllegalArgument or ClassCast |
| PropertyUpdates.ApplyInOrderMeetsSpec | src/main/java/com/spotlight/platform/userprofile/api/core/profile/UserProfileService.java:114-137 | the entry loop succeeds exactly when every visited entry accepts its update; it then yields the order-free expected map; a failure comes from one visited entry |
| Validation.IsInteger | src/main/java/com/spotlight/platform/userprofile/api/web/validation/UserProfileCommandValidator.java:36-46 | `isInteger` is false for the empty string and otherwise agrees with `Integer.parseInt` |
| TextForms.ParseInt | src/main/java/com/spotlight/platform/userprofile/api/web/validation/UserProfileCommandValidator.java:40-45 | a parsed value lies in the 32-bit range; only non-empty text made of decimal digits, with at most one leading '+' or '-', is accepted; a value parsed from text starting with '-' is at most 0, otherwise at least 0 |
| TextForms.ParseIntOfIntToString | src/main/java/com/spotlight/platform/userprofile/api/web/validation/UserProfileCommandValidator.java:33 | the decimal text of an integer parses back to it exactly when it fits in 32 bits |
| TextForms.ShowOfParseInt | src/main/java/com/spotlight/platform/userprofile/api/web/validation/UserProfileCommandValidator.java:40-45 | canonical text (no '+', no superfluous leading zero, no "-0") that parses is printed back exactly, the reverse of the decimal round trip |
| TextForms.IntToStringIsCanonical | src/main/java/com/spotlight/platform/userprofile/api/web/validation/UserProfileCommandValidator.java:33 | every integer prints as canonical text, so parsing and printing are inverse on canonical texts and 32-bit integers |
| TextForms.Show | src/main/java/com/spotlight/platform/userprofile/api/web/validation/UserProfileCommandValidator.java:33 | `toString` of a list starts with '['; the text of a number parses back to that number exactly when it fits in 32 bits |
| TextForms.ListNeverParses | src/main/java/com/spotlight/platform/userprofile/api/web/validation/UserProfileCommandValidator.java:33 | the text of a list starts with '[' and never parses as an integer |
| Validation.IsValid | src/main/java/com/spotlight/platform/userprofile/api/web/validation/UserProfileCommandValidator.java:12-27 | `isValid` refuses a missing or untyped command, accepts every typed REPLACE, and passes an INCREMENT only without list values and a COLLECT only with list values |
| Validation.IsAllValuesInteger | src/main/java/com/spotlight/platform/userprofile/api/web/validation/UserProfileCommandValidator.java:29-34 | `isAllValuesInteger` passes a map only if no value is a list, and passes every map whose values are all 32-bit numbers |
| Validation.IsAllValuesList | src/main/java/com/spotlight/platform/userprofile/api/web/validation/UserProfileCommandValidator.java:48-53 | a non-empty map that `isAllValuesList` passes is refused by `isAllValuesInteger`, so no non-empty map satisfies both the COLLECT and the INCREMENT rule |
| Validation.NullIsInvalid | src/main/java/com/spotlight/platform/userprofile/api/web/validation/UserProfileCommandValidator.java:14-16 | a missing command, or one without a type, is invalid |
| Validation.ReplaceAlwaysValid | src/main/java/com/spotlight/platform/userprofile/api/web/validation/UserProfileCommandValidator.java:17-26 | a typed REPLACE command is valid whatever its values |
| Validation.IncrementValidity | src/main/java/com/spotlight/platform/userprofile/api/web/validation/UserProfileCommandValidator.java:17-20 | an INCREMENT with a map is valid iff each value reads as a 32-bit integer: a number in range, never a list, and a scalar only when its text parses |
| Validation.IncrementWithWordIsInvalid | src/test/java/com/spotlight/platform/userprofile/api/web/resources/UserResourceIntegrationTest.java:162-181 | an INCREMENT carrying the word "new" is refused |
| Validation.CollectValidity | src/main/java/com/spotlight/platform/userprofile/api/web/validation/UserProfileCommandValidator.java:22-25 | a COLLECT with a map is valid iff every value is a list |
| Validation.CollectWithStringIsInvalid | src/test/java/com/spotlight/platform/userprofile/api/web/resources/UserResourceIntegrationTest.java:142-160 | a COLLECT carrying a bare string is refused |
| Validation.AbsentPropertiesPass | src/main/java/com/spotlight/platform/userprofile/api/web/validation/UserProfileCommandValidator.java:29-32 | a missing properties map passes the INCREMENT and COLLECT value checks |
| Commands.ParseType | src/main/java/com/spotlight/platform/userprofile/api/dtos/UserProfileCommand.java:43-45 | parsing succeeds only with the variant whose name equals the upper-cased text; otherwise it fails with IllegalArgument, and then no variant has that name |
| Commands.ToUpper | src/main/java/com/spotlight/platform/userprofile/api/dtos/UserProfileCommand.java:44 | upper-casing keeps the length, leaves no lower-case letter, and leaves every other character as it was |
| Commands.ToUpperIdempotent | src/main/java/com/spotlight/platform/userprofile/api/dtos/UserProfileCommand.java:44 | upper-casing twice is upper-casing once |
| Commands.ParseTypeExactly | src/main/java/com/spotlight/platform/userprofile/api/dtos/UserProfileCommand.java:43-45 | the parser yields t exactly when the upper-cased text is t's name |
| Commands.ParseTypeIgnoresCase | src/main/java/com/spotlight/platform/userprofile/api/dtos/UserProfileCommand.java:44 | texts that upper-case alike parse alike |
| Commands.IncrementSpellings | src/main/java/com/spotlight/platform/userprofile/api/dtos/UserProfileCommand.java:43-45 | "increment", "Increment" and "INCREMENT" all give INCREMENT; "newProperty" fails with IllegalArgument |
| Commands.SetTypeNameRoundTrip | src/main/java/com/spotlight/platform/userprofile/api/dtos/UserProfileCommand.java:42-45 | setting the type from a variant's own name and reading it back gives that variant; nothing else changes |
| Commands.SetType | src/main/java/com/spotlight/platform/userprofile/api/dtos/UserProfileCommand.java:43-45 | `setType` succeeds iff some variant's name equals the upper-cased text; it stores that variant and keeps the user id and the properties |
| Commands.ThreeVariants | src/main/java/com/spotlight/platform/userprofile/api/dtos/UserProfileCommand.java:51-55 | the command type has exactly three variants, with distinct names |
| Commands.NewCommand | src/main/java/com/spotlight/platform/userprofile/api/dtos/UserProfileCommand.java:27-33 | the all-fields constructor stores user id, type and properties as given |
| Commands.SetUserId | src/main/java/com/spotlight/platform/userprofile/api/dtos/UserProfileCommand.java:38-39 | `setUserId` replaces only the user id |
| Commands.SetProperties | src/main/java/com/spotlight/platform/userprofile/api/dtos/UserProfileCommand.java:48-49 | `setProperties` replaces only the properties |
| PropertyValues.NumberIsNotList | src/main/java/com/spotlight/platform/userprofile/api/core/profile/UserProfileService.java:89-91 | a number and a one-element list holding it are different values of different kinds |
| PropertyValues.Wrap | src/main/java/com/spotlight/platform/userprofile/api/core/profile/UserProfileService.java:71 | `UserProfilePropertyValue.valueOf` keeps the raw value and its kind: the wrapped value is a number or a list exactly when the raw value is |
| Profiles.PutFilesUnderOwnId | src/main/java/com/spotlight/platform/userprofile/api/core/profile/UserProfileService.java:46 | the store's `put` files the profile under its own id, adds that id if new, leaves every other profile as it was and keeps the store well keyed |
| PropertyValues.WrapIsStructural | src/main/java/com/spotlight/platform/userprofile/api/core/profile/UserProfileService.java:42 | wrapping keeps the raw value, so wrapped values are equal exactly when the raw values are |
| Admission.StrictOnlyNarrows | src/main/java/com/spotlight/platform/userprofile/api/web/validation/UserProfileCommandValidator.java:17-20 | the corrected validator refuses only INCREMENT commands with a value that is not a 32-bit number |
| Admission.ValidatorAdmitsUncastableIncrement | src/main/java/com/spotlight/platform/userprofile/api/web/validation/UserProfileCommandValidator.java:29-34 | as written, an INCREMENT carrying the string "42" passes validation, then fails the engine's cast with ClassCast |
| Admission.StrictValidationPreventsClassCast | src/main/java/com/spotlight/platform/userprofile/api/core/profile/UserProfileService.java:93 | a command the corrected validator accepts never fails with ClassCast, for any store and any iteration order |
| Admission.CollectValidationPreventsClassCast | src/main/java/com/spotlight/platform/userprofile/api/core/profile/UserProfileService.java:128 | for COLLECT, the validator as written already rules out the engine's ClassCast |

## Left out

- ProfileService.IncrementAdds: the model stores the exact integer sum. The source adds through `double` and converts back with `intValue`, which truncates fractions and saturates at the 32-bit limits. Stored numbers and deltas are mathematical integers here, so fractional values and 32-bit overflow are not modelled.
- PropertyValues.Raw: numbers are integers only. Fractional JSON numbers, and the Integer, Long and BigInteger distinction that Jackson makes, are not modelled.
- PropertyValues.Raw: JSON strings, booleans, objects and every other value that is neither a number nor a list become one `Scalar(text)` kind holding their `toString` text. So the Java String "true" and Boolean.TRUE are the same value here, although `UserProfilePropertyValue.equals` tells them apart. No rule of the engine or the validator branches on these kinds: the engine only asks "number?" and "list?", and the validator only reads the text.
- ProfileService.IncrementCumulative: holds only because the model adds exact integers. The source adds through `double` and stores `intValue()`, which saturates at the 32-bit limits. Take a stored 1, a = 2147483647 and b = -1, all accepted by the validator. Java stores 2147483647 after the first increment and 2147483646 after the second, but one increment by a + b = 2147483646 stores 2147483647. The property is the source's only while every partial sum stays within 32 bits.
- TextForms.ParseInt: accepts ASCII digits only. `Integer.parseInt` also accepts other Unicode decimal digits. The parsed value is pinned by `TextForms.ShowOfParseInt` for canonical text only; for text with a '+' or leading zeros, the contract gives the sign and range but not the value.
- Commands.ToUpper: upper-cases ASCII letters only. Java's `toUpperCase` is Unicode-aware and depends on the locale.
- Null values inside a properties map are not modelled, because a raw value is never null here. `toString` on such a value would throw in the validator.
- The no-argument constructor of the command object leaves the user id null. The user id here is always a string; the tests set it before every use.
- The `default` branch of the dispatch cannot be reached with a three-variant enum. A missing type on a known user is modelled as the NullPointer failure raised by the `switch`.
- Persistence is a map passed in and returned. The concurrent map, races between commands, and any lost update are out of scope.
- The clock (`LocalDateTime.now`) is the parameter `now`.
- Java reference aliasing is not modelled. `addAll` extends the stored list in place, and a store that shares objects could observe partial writes before a throw; the model uses value semantics.
- The property-name, user-id and property-value wrapper classes are not part of this model. Names and ids are plain strings. The wrapped value is assumed to be a structural wrapper, which matches its use with `instanceof` and `equals` in the service and the tests.
- The HTTP resource (`UserResource`) is transport plumbing and is not modelled: routing, status codes, validator construction, and the batch endpoint that runs the engine per command and joins the error messages. Neither is the validation annotation, which has no logic.

## Findings

| source | as written | input that shows it | evidently intended | confidence | as-written member | corrected member |
|---|---|---|---|---|---|---|
| src/main/java/com/spotlight/platform/userprofile/api/web/validation/UserProfileCommandValidator.java:29-34 | INCREMENT values are checked by the text of `toString()`, not by their kind | an INCREMENT with properties {"x": "42"}, where "42" is a JSON string, on an existing user: the validator accepts it, then the engine's `(Number)` cast at UserProfileService.java:93 throws ClassCastException | an INCREMENT value must be a number that fits in 32 bits | medium; not executed | Admission.ValidatorAdmitsUncastableIncrement | Admission.StrictValidationPreventsClassCast |

`Admission.IsValidStrict` is the corrected validator. It adds the kind check to the INCREMENT rule and changes nothing else (`Admission.StrictOnlyNarrows`). The engine does not depend on the validator, so no other member of the model is affected by the correction.
