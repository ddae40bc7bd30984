/**
  The runtime type helpers of `typeHelper.ts`: type tagging, URL and
  identifier checks, the API-error shape test and the two action-content
  discriminators.
 */
module TypeHelper {
  import opened Regex
  import opened JsValues
  import opened DriveOperations

  // ---------------------------------------------------------------------
  // Type tagging

  /** The tags `getType` returns. */
  datatype Types = STRING | NUMBER | BOOLEAN | OBJECT | ARRAY | FUNCTION | UNDEFINED | NULL | UNKNOWN

  /** `isObject`: the `toString` tag is exactly "Object". */
  function IsObject(v: JsValue): (r: bool)
    ensures r <==> v.JsObject? && v.tag == "Object"
  {
    ToStringTag(v) == "Object"
  }

  /** `isFunction`: the `toString` tag is "Function" or "AsyncFunction". */
  function IsFunction(v: JsValue): (r: bool)
    ensures r <==>
      || (v.JsFunction? && (v.kind.Ordinary? || v.kind.Async?))
      || (v.JsObject? && (v.tag == "Function" || v.tag == "AsyncFunction"))
  {
    ToStringTag(v) == "Function" || ToStringTag(v) == "AsyncFunction"
  }

  /** `getType`: the first test that succeeds, in the source's order, decides
      the tag. The contract gives, for each tag, exactly the values that get it. */
  function GetType(v: JsValue): (t: Types)
    ensures t == STRING <==> v.JsString?
    ensures t == NUMBER <==> v.JsNumber?
    ensures t == BOOLEAN <==> v.JsBoolean?
    ensures t == ARRAY <==> v.JsArray?
    ensures t == FUNCTION <==>
      || (v.JsFunction? && (v.kind.Ordinary? || v.kind.Async?))
      || (v.JsObject? && (v.tag == "Function" || v.tag == "AsyncFunction"))
    ensures t == OBJECT <==> v.JsObject? && v.tag == "Object"
    ensures t == UNDEFINED <==> v.JsUndefined?
    ensures t == NULL <==> v.JsNull?
    ensures t == UNKNOWN <==>
      || v.JsBigInt? || v.JsSymbol?
      || (v.JsFunction? && (v.kind.Generator? || v.kind.AsyncGenerator?))
      || (v.JsObject? && v.tag != "Object" && v.tag != "Function" && v.tag != "AsyncFunction")
  {
    if TypeOf(v) == TString then STRING
    else if TypeOf(v) == TNumber then NUMBER
    else if TypeOf(v) == TBoolean then BOOLEAN
    else if IsArray(v) then ARRAY
    else if IsFunction(v) then FUNCTION
    else if IsObject(v) then OBJECT
    else if TypeOf(v) == TUndefined then UNDEFINED
    else if v == JsNull then NULL
    else UNKNOWN
  }

  // ---------------------------------------------------------------------
  // URLs

  /** `isBlobURLOrUrl`. The general URL test `isURL` is the parameter `isUrl`. */
  function IsBlobURLOrUrl(url: string, isUrl: string -> bool): (r: bool)
    ensures url == "" ==> !r
    ensures StartsWith(url, "blob:") ==> r
    ensures url != "" && !StartsWith(url, "blob:") ==> r == isUrl(url)
  {
    if url == "" then false
    else StartsWith(url, "blob:") || isUrl(url)
  }

  /** The prefixes `isValidUrlScheme` accepts. */
  const UrlSchemes: seq<string> := ["http://", "https://", "mailto:", "tel:"]

  /** `isValidUrlScheme`. */
  predicate IsValidUrlScheme(url: string)
  {
    || StartsWith(url, "http://")
    || StartsWith(url, "https://")
    || StartsWith(url, "mailto:")
    || StartsWith(url, "tel:")
  }

  /** A URL is accepted exactly when it is one of the schemes followed by anything. */
  lemma UrlSchemeIffSchemePrefix(url: string)
    ensures IsValidUrlScheme(url) <==>
      exists scheme, rest :: scheme in UrlSchemes && url == scheme + rest
  {
    forall scheme | scheme in UrlSchemes {
      StartsWithIffConcat(url, scheme);
    }
    if IsValidUrlScheme(url) {
      var scheme :| scheme in UrlSchemes && StartsWith(url, scheme);
      assert url == scheme + url[|scheme|..];
    }
  }

  /** Appending anything to an accepted URL keeps it accepted. */
  lemma UrlSchemeKeptByAppend(url: string, suffix: string)
    requires IsValidUrlScheme(url)
    ensures IsValidUrlScheme(url + suffix)
  {
    var scheme :| scheme in UrlSchemes && StartsWith(url, scheme);
    StartsWithAppend(url, scheme, suffix);
  }

  // ---------------------------------------------------------------------
  // Integers and identifiers

  /** `\d`, which is `[0-9]`. */
  const Digit: CharClass := [Range('0', '9')]

  predicate IsAsciiDigit(c: char)
  {
    '0' <= c <= '9'
  }

  /** `isInt` on a string: `/^\d+$/.test(val)`. (`Number.isInteger` is false
      for every string, so the other disjunct plays no part here.) */
  predicate IsInt(val: string)
  {
    MatchesPlus(Digit, val)
  }

  /** A string is an integer exactly when it is a non-empty run of ASCII digits. */
  lemma IsIntIffDigits(val: string)
    ensures IsInt(val) <==> |val| > 0 && forall i :: 0 <= i < |val| ==> IsAsciiDigit(val[i])
  {
    MatchesPlusIffAll(Digit, val);
    forall c: char
      ensures InClass(Digit, c) <==> IsAsciiDigit(c)
    {
      if IsAsciiDigit(c) {
        assert ItemMatches(Digit[0], c);
      }
    }
  }

  /** Signs, decimal points and the empty string are rejected; leading zeros are not. */
  lemma IsIntExamples()
    ensures !IsInt("") && !IsInt("-1") && !IsInt("1.0") && !IsInt("+7")
    ensures IsInt("0") && IsInt("007")
  {
    IsIntIffDigits("");
    IsIntIffDigits("-1");
    IsIntIffDigits("1.0");
    IsIntIffDigits("+7");
    IsIntIffDigits("0");
    IsIntIffDigits("007");
  }

  /** `DISPLAY_NAME_REGEX`, `^([a-zA-Z_$])([a-zA-Z0-9_$])*$`: its two classes. */
  const DisplayNameHead: CharClass := [Range('a', 'z'), Range('A', 'Z'), Single('_'), Single('$')]
  const DisplayNameTail: CharClass :=
    [Range('a', 'z'), Range('A', 'Z'), Range('0', '9'), Single('_'), Single('$')]

  /** `isValidDisplayName`: one head character, then any number of tail characters. */
  predicate IsValidDisplayName(displayName: string)
  {
    |displayName| >= 1
    && InClass(DisplayNameHead, displayName[0])
    && MatchesStar(DisplayNameTail, displayName[1..])
  }

  predicate IsIdentifierStart(c: char)
  {
    ('a' <= c <= 'z') || ('A' <= c <= 'Z') || c == '_' || c == '$'
  }

  predicate IsIdentifierPart(c: char)
  {
    IsIdentifierStart(c) || IsAsciiDigit(c)
  }

  lemma DisplayNameHeadIff(c: char)
    ensures InClass(DisplayNameHead, c) <==> IsIdentifierStart(c)
  {
    if 'a' <= c <= 'z' {
      assert ItemMatches(DisplayNameHead[0], c);
    } else if 'A' <= c <= 'Z' {
      assert ItemMatches(DisplayNameHead[1], c);
    } else if c == '_' {
      assert ItemMatches(DisplayNameHead[2], c);
    } else if c == '$' {
      assert ItemMatches(DisplayNameHead[3], c);
    }
  }

  lemma DisplayNameTailIff(c: char)
    ensures InClass(DisplayNameTail, c) <==> IsIdentifierPart(c)
  {
    if 'a' <= c <= 'z' {
      assert ItemMatches(DisplayNameTail[0], c);
    } else if 'A' <= c <= 'Z' {
      assert ItemMatches(DisplayNameTail[1], c);
    } else if '0' <= c <= '9' {
      assert ItemMatches(DisplayNameTail[2], c);
    } else if c == '_' {
      assert ItemMatches(DisplayNameTail[3], c);
    } else if c == '$' {
      assert ItemMatches(DisplayNameTail[4], c);
    }
  }

  /** A display name is accepted exactly when it is non-empty, starts with a
      letter, `_` or `$`, and continues with letters, digits, `_` or `$`. */
  lemma DisplayNameIffIdentifier(displayName: string)
    ensures IsValidDisplayName(displayName) <==>
      && |displayName| > 0
      && IsIdentifierStart(displayName[0])
      && forall i :: 1 <= i < |displayName| ==> IsIdentifierPart(displayName[i])
  {
    if |displayName| > 0 {
      var tail := displayName[1..];
      DisplayNameHeadIff(displayName[0]);
      MatchesStarIffAll(DisplayNameTail, tail);
      forall i | 0 <= i < |tail| {
        DisplayNameTailIff(tail[i]);
      }
      assert forall i :: 1 <= i < |displayName| ==> displayName[i] == tail[i - 1];
    }
  }

  // ---------------------------------------------------------------------
  // API errors

  /** `isILLAAPiError`: the value looks like a response whose `data` carries
      an `errorCode` and a string `errorMessage`. The contract states the
      shape without the `typeof`/null probing, which only objects get past. */
  function IsILLAApiError(error: JsValue): (r: bool)
    ensures r <==>
      && error.JsObject? && "data" in error.props
      && error.props["data"].JsObject?
      && "errorCode" in error.props["data"].props
      && "errorMessage" in error.props["data"].props
      && error.props["data"].props["errorMessage"].JsString?
  {
    && TypeOf(error) == TObject
    && error != JsNull
    && HasProperty(error, "data")
    && TypeOf(GetProperty(error, "data")) == TObject
    && GetProperty(error, "data") != JsNull
    && HasProperty(GetProperty(error, "data"), "errorCode")
    && HasProperty(GetProperty(error, "data"), "errorMessage")
    && TypeOf(GetProperty(GetProperty(error, "data"), "errorMessage")) == TString
  }

  // ---------------------------------------------------------------------
  // Action content discriminators

  /** An action's content: the properties the `in` operator finds on it. */
  type ActionContent = map<string, JsValue>

  const DriveActionType: string := "illadrive"
  const S3ActionType: string := "s3"

  /** `isClientS3ActionContent`; `clientS3` is the `ClientS3` list of commands. */
  function IsClientS3ActionContent(clientS3: seq<string>, actionType: string, content: ActionContent): (r: bool)
    ensures r <==>
      && actionType == "s3"
      && "commands" in content
      && content["commands"].JsString?
      && content["commands"].s in clientS3
  {
    && actionType == S3ActionType
    && "commands" in content
    && IncludesString(clientS3, content["commands"])
  }

  /** `isDriveActionContent`: the content of a drive action whose `operation`
      is a member of the drive-operation enumeration. */
  function IsDriveActionContent(drive: DriveEnum, actionType: string, content: ActionContent): (r: bool)
    ensures r <==>
      && actionType == "illadrive"
      && "operation" in content
      && content["operation"].JsString?
      && Decode(drive, content["operation"].s).Some?
  {
    && actionType == DriveActionType
    && "operation" in content
    && IncludesString(Values(drive), content["operation"])
  }

  /** No content passes both discriminators: they demand different action types. */
  lemma DiscriminatorsExclusive(drive: DriveEnum, clientS3: seq<string>, actionType: string, content: ActionContent)
    ensures !(IsDriveActionContent(drive, actionType, content) && IsClientS3ActionContent(clientS3, actionType, content))
  {
  }
}
