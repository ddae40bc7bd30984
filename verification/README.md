# Action error routing and type helpers of the ILLA builder

A Dafny model of two pieces of the builder's action-handling utilities:

- `runActionErrorForColla`, which decides which upgrade prompt a failed
  action calls for: the token prompt for AI-agent actions, the traffic prompt
  for drive downloads, the storage prompt for drive uploads, and none for
  anything else. The prompt call (`handleCollaPurchaseError`) is external; the
  model returns the `(error, category)` pair it would be given, or `None`.
- the runtime type helpers of `typeHelper.ts`: `getType`, `isValidUrlScheme`,
  `isBlobURLOrUrl`, `isInt` on strings, `isValidDisplayName`,
  `isILLAAPiError`, and the two action-content discriminators
  `isDriveActionContent` and `isClientS3ActionContent`.

Files and modules:

- `optional.dfy` (`Optional`): the `Option` type.
- `regex.dfy` (`Regex`): the part of JavaScript regular expressions the helpers
  use: bracket classes of ranges and single characters, their `*` and `+`,
  anchored with `^…$`.
- `js_value.dfy` (`JsValues`): an abstract JavaScript value, with `typeof`,
  `Array.isArray`, the tag from `Object.prototype.toString`, the `in` operator,
  `includes` on a string array, and `startsWith`.
- `drive_operation.dfy` (`DriveOperations`): the drive-operation enumeration
  `ILLA_DRIVE_ACTION_REQUEST_TYPE`. Its declaration is not part of this model.
  It is a parameter (`DriveEnum`) giving the string values of
  `DOWNLOAD_ONE`, `DOWNLOAD_MULTIPLE`, `UPLOAD` and `UPLOAD_MULTIPLE` and of
  every other member (`others`). The enumeration is not treated as closed.
- `type_helper.dfy` (`TypeHelper`): `typeHelper.ts`.
- `action_error.dfy` (`ActionErrors`): `runActionErrorForColla.ts`. It also
  holds a reference definition: an action as a tagged union (`TypedAction`),
  recognised from its type tag and content by `ParseAction`, and a category
  table (`CategoryOf`) over it. A lemma shows the classifier equals the table
  on every input.

Each regular-expression predicate is written the way the expression reads
(a class for the first character, a starred class for the rest), and a lemma
proves it equal to a plain statement over the characters. An action type is the
string the source compares. An action's content is a map from the property
names the `in` operator finds to their values.

## Model

| member | source | states |
|---|---|---|
| `Regex.MatchesStarIffAll` | apps/builder/src/utils/typeHelper.ts:19 | an anchored starred class `^[c]*$` accepts exactly the strings whose every character is in the class |
| `Regex.MatchesPlusIffAll` | apps/builder/src/utils/typeHelper.ts:82 | an anchored `^[c]+$` accepts exactly the non-empty strings whose every character is in the class |
| `JsValues.TypeOf` | apps/builder/src/utils/typeHelper.ts:45-52 | `typeof` is "object" exactly for null, arrays and other objects, and "function" exactly for function values |
| `JsValues.StartsWithIffConcat` | apps/builder/src/utils/typeHelper.ts:65 | `s.startsWith(p)` holds exactly when `s` is `p` followed by some string |
| `JsValues.StartsWithAppend` | apps/builder/src/utils/typeHelper.ts:71-77 | appending to a string keeps every prefix it had |
| `DriveOperations.Decode` | apps/builder/src/utils/typeHelper.ts:121-123 | a string decodes to an operation exactly when it is one of the enumeration's values, and then to a member whose value it is |
| `DriveOperations.DecodeValueOf` | apps/builder/src/utils/typeHelper.ts:121-123 | when member values are distinct, every member's value decodes back to that member |
| `TypeHelper.IsObject` | apps/builder/src/utils/typeHelper.ts:33-35 | `isObject` holds exactly for objects whose `toString` tag is "Object": never for arrays, functions, null or primitives |
| `TypeHelper.IsFunction` | apps/builder/src/utils/typeHelper.ts:37-42 | `isFunction` holds exactly for ordinary and async functions and for objects tagged "Function" or "AsyncFunction"; generator functions are not functions to it |
| `TypeHelper.GetType` | apps/builder/src/utils/typeHelper.ts:44-54 | for each tag, exactly which values get it: an array is ARRAY, never OBJECT; OBJECT only for objects whose tag is "Object"; FUNCTION for ordinary and async functions and for objects tagged "Function"/"AsyncFunction"; UNDEFINED only for undefined; NULL only for null; generator functions, symbols, bigints and other tagged objects are UNKNOWN |
| `TypeHelper.IsBlobURLOrUrl` | apps/builder/src/utils/typeHelper.ts:63-66 | the empty string is rejected; a `blob:` string is accepted whatever the URL check says; any other string gets the URL check's answer |
| `TypeHelper.UrlSchemeIffSchemePrefix` | apps/builder/src/utils/typeHelper.ts:68-79 | a URL is accepted exactly when it is `http://`, `https://`, `mailto:` or `tel:` followed by anything |
| `TypeHelper.UrlSchemeKeptByAppend` | apps/builder/src/utils/typeHelper.ts:68-79 | appending any suffix to an accepted URL keeps it accepted |
| `TypeHelper.IsIntIffDigits` | apps/builder/src/utils/typeHelper.ts:81-83 | a string passes `isInt` exactly when it is non-empty and all ASCII digits |
| `TypeHelper.IsIntExamples` | apps/builder/src/utils/typeHelper.ts:81-83 | "", "-1", "1.0" and "+7" are rejected; "0" and "007" are accepted |
| `TypeHelper.DisplayNameHeadIff` | apps/builder/src/utils/typeHelper.ts:19 | the class `[a-zA-Z_$]` holds exactly the ASCII letters, `_` and `$` |
| `TypeHelper.DisplayNameTailIff` | apps/builder/src/utils/typeHelper.ts:19 | the class `[a-zA-Z0-9_$]` holds exactly the ASCII letters, digits, `_` and `$` |
| `TypeHelper.DisplayNameIffIdentifier` | apps/builder/src/utils/typeHelper.ts:85-86 | a display name is accepted exactly when it is non-empty, its first character is a letter, `_` or `$`, and every later one is a letter, digit, `_` or `$`; so the empty string is rejected |
| `TypeHelper.IsILLAApiError` | apps/builder/src/utils/typeHelper.ts:88-101 | the error has the shape exactly when it is an object with a `data` object that has an `errorCode` and a string `errorMessage` |
| `TypeHelper.IsClientS3ActionContent` | apps/builder/src/utils/typeHelper.ts:103-112 | holds exactly when the type is `s3` and the content's `commands` is a string in the client command list; false for every other type and for content without `commands` |
| `TypeHelper.IsDriveActionContent` | apps/builder/src/utils/typeHelper.ts:114-125 | holds exactly when the type is `illadrive` and the content's `operation` is a string that decodes to a member of the enumeration; false for every other type and for content without `operation` |
| `TypeHelper.DiscriminatorsExclusive` | apps/builder/src/utils/typeHelper.ts:103-125 | no type and content pass both discriminators |
| `ActionErrors.RunActionErrorForColla` | apps/builder/src/utils/action/runActionErrorForColla.ts:12-34 | TOKEN exactly for `aiagent`, whatever the content; TRAFFIC exactly for `illadrive` with a download operation; STORAGE exactly for `illadrive` with an upload operation that is not also a download value; no prompt exactly in every other case (other types such as `s3`, a missing or unknown operation); a prompt always carries the unchanged error |
| `ActionErrors.ErrorNotInspected` | apps/builder/src/utils/action/runActionErrorForColla.ts:12-34 | whether a prompt is produced, and its category, do not depend on the error |
| `ActionErrors.ParseAction` | apps/builder/src/utils/action/runActionErrorForColla.ts:17-20 | an action is recognised as an AI agent exactly for `aiagent`, and as a drive action exactly when the drive discriminator holds, with an operation that is a member whose value the content carries; the client S3 variant is an extension of the reference table (the classifier never calls `isClientS3ActionContent`): it is recognised exactly when the S3 discriminator holds |
| `ActionErrors.RunActionErrorMatchesTable` | apps/builder/src/utils/action/runActionErrorForColla.ts:17-34 | on every input the classifier equals the category table applied to the recognised action, with the error attached |
| `ActionErrors.DriveOperationPrompt` | apps/builder/src/utils/action/runActionErrorForColla.ts:20-34 | with distinct member values, a drive action naming a member gets that member's table entry: TRAFFIC for the downloads, STORAGE for the uploads |
| `ActionErrors.OtherDriveOperationUnclassified` | apps/builder/src/utils/action/runActionErrorForColla.ts:20-34 | with distinct member values, a drive action naming any other member of the enumeration gets no prompt |

## Left out

- `isURL`: a large regular expression with bounded repetition and a
  top-level-domain heuristic. `IsBlobURLOrUrl` takes it as a parameter.
- The number branch of `isInt` (`Number.isInteger`): it concerns IEEE-754
  doubles. Numbers are opaque in the model. `Number.isInteger` is false for
  every string, so the string branch is complete.
- `handleCollaPurchaseError` and the upgrade-prompt system: external. A call is
  the returned `Dispatch`. Its return value, which the source passes on, is
  not modelled.
- The values of `ILLA_DRIVE_ACTION_REQUEST_TYPE` and of `ClientS3`: their
  declarations are not part of this model. Both are parameters. Both are
  assumed to hold strings, so `includes` finds only string values.
- `JsValues.HasProperty`: arrays, functions and primitives are modelled without
  named properties, and own and inherited properties of an object are not told
  apart. None of the names probed (`data`, `errorCode`, `errorMessage`,
  `operation`, `commands`) exists on the built-in prototypes.
- Action content is assumed to be an object, as its TypeScript type
  `ActionContent` requires. For null, undefined or a primitive, the `in`
  tests of the two discriminators throw a TypeError, and so does the
  classifier; that error path is not modelled.
- `JsValues.ToStringTag`: a `Symbol.toStringTag` set on an array or a function
  is not modelled; for other objects the tag is the object's `tag` field.
- Character encoding: strings are sequences of Dafny characters. All classes
  and prefixes involved are ASCII, so reading a string as UTF-16 code units or
  as code points gives the same answers.
- The text-area widget styles: static CSS with no behaviour.
