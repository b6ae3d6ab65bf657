/** The CLI's loggers. The JSON logger collects errors and warnings in call
    order, keeps the last result, and writes one envelope object
    {"result": ..., "errors": [...], "warnings": [...]} at the end of a run;
    the console logger prints as it goes and writes nothing at the end. */
module Logger {
  import opened Json

  /** An error or a warning: its numeric code and its message. */
  datatype Diagnostic = Diagnostic(code: int, message: string)

  /** One row of the list of sandbox implementations: name, overhead and the
      names of its features. */
  datatype BoxInfo = BoxInfo(name: string, overhead: int, features: seq<string>)

  /** Solver helper: the keys the logger writes have nothing to escape. */
  lemma KeysArePlain()
    ensures PlainKey("code") && PlainKey("message")
    ensures PlainKey("name") && PlainKey("overhead") && PlainKey("features")
    ensures PlainKey("result") && PlainKey("errors") && PlainKey("warnings")
  {
  }

  /** Solver helper: each key with its quotes and the punctuation around it
      as one piece of text. */
  lemma KeyPrefixes()
    ensures "{\"" + "code" + "\": " == "{\"code\": "
    ensures ", \"" + "message" + "\": " == ", \"message\": "
    ensures "{\"" + "name" + "\": " == "{\"name\": "
    ensures ", \"" + "overhead" + "\": " == ", \"overhead\": "
    ensures ", \"" + "features" + "\": " == ", \"features\": "
    ensures "{\"" + "result" + "\": " == "{\"result\": "
    ensures ", \"" + "errors" + "\": " == ", \"errors\": "
    ensures ", \"" + "warnings" + "\": " == ", \"warnings\": "
  {
  }

  /** An error or warning entry, as the write-time converter builds it. */
  function DiagnosticJson(d: Diagnostic): (j: string)
    ensures |j| >= 2 && j[0] == '{' && j[|j| - 1] == '}'
  {
    ToJsonObj([("code", Int(d.code)), ("message", Str(d.message))])
  }

  /** The entry is {"code": <decimal>, "message": <string>}. */
  lemma DiagnosticJsonShape(d: Diagnostic)
    ensures DiagnosticJson(d)
         == "{\"code\": " + IntToDecimal(d.code) + ", \"message\": " + StringToJson(d.message) + "}"
  {
    KeysArePlain();
    KeyPrefixes();
    ToJsonScalars(d.code, d.message, "");
    PlainObjOfTwo("code", Int(d.code), "message", Str(d.message));
  }

  /** The array of entries, in insertion order. */
  function DiagnosticsJson(ds: seq<Diagnostic>): (j: string)
    ensures |j| >= 2 && j[0] == '[' && j[|j| - 1] == ']'
  {
    ArrayOf(Converted(ds, DiagnosticJson))
  }

  /** Recording one more diagnostic adds its entry at the end of the array. */
  lemma DiagnosticAppended(ds: seq<Diagnostic>, d: Diagnostic)
    ensures ds == [] ==> DiagnosticsJson(ds + [d]) == "[" + DiagnosticJson(d) + "]"
    ensures ds != [] ==> DiagnosticsJson(ds + [d]) == "[" + Join(Converted(ds, DiagnosticJson)) + ", " + DiagnosticJson(d) + "]"
  {
    var ps := Converted(ds, DiagnosticJson);
    ConvertedAppend(ds, d, DiagnosticJson);
    ArrayOfAppend(ps, DiagnosticJson(d));
  }

  /** One implementation in the list result, as the result converter builds it. */
  function BoxInfoJson(b: BoxInfo): (j: string)
    ensures |j| >= 2 && j[0] == '{' && j[|j| - 1] == '}'
  {
    ToJsonObj([("name", Str(b.name)), ("overhead", Int(b.overhead)),
               ("features", Vec(seq(|b.features|, k requires 0 <= k < |b.features| => Str(b.features[k]))))])
  }

  /** The row is {"name": <string>, "overhead": <decimal>, "features": [<string>, ...]}. */
  lemma BoxInfoJsonShape(b: BoxInfo)
    ensures BoxInfoJson(b)
         == "{\"name\": " + StringToJson(b.name) + ", \"overhead\": " + IntToDecimal(b.overhead)
            + ", \"features\": " + ArrayOf(Converted(b.features, StringToJson)) + "}"
  {
    var items := seq(|b.features|, k requires 0 <= k < |b.features| => Str(b.features[k]));
    assert seq(|items|, k requires 0 <= k < |items| => ToJson(items[k])) == Converted(b.features, StringToJson);
    KeysArePlain();
    KeyPrefixes();
    ToJsonScalars(b.overhead, b.name, "");
    PlainObjOfThree("name", Str(b.name), "overhead", Int(b.overhead), "features", Vec(items));
  }

  /** The object `write` emits: the stored result goes through the string
      encoder (it is a std::string), the two arrays are passed raw. */
  function Envelope(result: string, errors: seq<Diagnostic>, warnings: seq<Diagnostic>): (j: string)
    ensures |j| >= 2 && j[0] == '{' && j[|j| - 1] == '}'
  {
    ToJsonObj([("result", Str(result)), ("errors", Raw(DiagnosticsJson(errors))),
               ("warnings", Raw(DiagnosticsJson(warnings)))])
  }

  lemma EnvelopeShape(result: string, errors: seq<Diagnostic>, warnings: seq<Diagnostic>)
    ensures Envelope(result, errors, warnings)
         == "{\"result\": " + StringToJson(result) + ", \"errors\": " + DiagnosticsJson(errors)
            + ", \"warnings\": " + DiagnosticsJson(warnings) + "}"
  {
    var errs, warns := DiagnosticsJson(errors), DiagnosticsJson(warnings);
    KeysArePlain();
    KeyPrefixes();
    ToJsonScalars(0, result, errs);
    ToJsonScalars(0, result, warns);
    PlainObjOfThree("result", Str(result), "errors", Raw(errs), "warnings", Raw(warns));
  }

  /** No diagnostics: the empty array. */
  lemma NoDiagnostics()
    ensures DiagnosticsJson([]) == "[]"
  {
    assert Converted([], DiagnosticJson) == [];
  }

  /** The words the logger may store as its result, through the string encoder. */
  lemma QuotedWord(w: string)
    requires w == "null" || w == "true" || w == "false"
    ensures w == "null" ==> StringToJson(w) == "\"null\""
    ensures w == "true" ==> StringToJson(w) == "\"true\""
    ensures w == "false" ==> StringToJson(w) == "\"false\""
  {
    assert forall i :: 0 <= i < |w| ==> w[i] != '\\' && w[i] != '"';
    PlainStringToJson(w);
  }

  /** A logger that was never given anything writes a "null" string result
      and two empty arrays. */
  lemma FreshEnvelope()
    ensures Envelope("null", [], [])
         == "{\"result\": " + "\"null\"" + ", \"errors\": " + "[]" + ", \"warnings\": " + "[]" + "}"
  {
    EnvelopeShape("null", [], []);
    NoDiagnostics();
    QuotedWord("null");
  }

  /** A stored boolean result is already JSON text, and `write` quotes it
      once more: the wire carries the string "true" or "false". */
  lemma StoredBoolIsQuoted(b: bool)
    ensures Envelope(ToJson(Bool(b)), [], [])
         == "{\"result\": " + (if b then "\"true\"" else "\"false\"") + ", \"errors\": " + "[]"
            + ", \"warnings\": " + "[]" + "}"
  {
    EnvelopeShape(ToJson(Bool(b)), [], []);
    NoDiagnostics();
    QuotedWord(ToJson(Bool(b)));
  }

  class JsonLogger {
    var result: string
    var errors: seq<Diagnostic>
    var warnings: seq<Diagnostic>

    constructor()
      ensures result == "null" && errors == [] && warnings == []
    {
      result := "null";
      errors := [];
      warnings := [];
    }

    function IsTtyLogger(): (tty: bool)
      ensures !tty
    {
      false
    }

    method Error(code: int, message: string)
      modifies this
      ensures errors == old(errors) + [Diagnostic(code, message)]
      ensures warnings == old(warnings) && result == old(result)
    {
      errors := errors + [Diagnostic(code, message)];
    }

    method Warning(code: int, message: string)
      modifies this
      ensures warnings == old(warnings) + [Diagnostic(code, message)]
      ensures errors == old(errors) && result == old(result)
    {
      warnings := warnings + [Diagnostic(code, message)];
    }

    method ResultBool(res: bool)
      modifies this
      ensures result == (if res then "true" else "false")
      ensures errors == old(errors) && warnings == old(warnings)
    {
      result := ToJson(Bool(res));
    }

    method ResultSize(res: nat)
      modifies this
      ensures result == IntToDecimal(res) && ParseInt(result) == Some(res as int)
      ensures errors == old(errors) && warnings == old(warnings)
    {
      result := ToJson(Int(res));
    }

    method ResultString(res: string)
      modifies this
      ensures result == StringToJson(res) && ParseJsonString(result) == Some(res)
      ensures errors == old(errors) && warnings == old(warnings)
    {
      result := ToJson(Str(res));
    }

    /** The key/value list result, built with the pair-list encoder as
        written: every member is followed by a separator, so a non-empty
        list ends in `, }` (see PairsAsWrittenTrailingSeparator). */
    method ResultPairs(res: seq<(string, string)>)
      modifies this
      ensures result == "{" + Terminated(Members(seq(|res|, k requires 0 <= k < |res| => (res[k].0, Str(res[k].1))))) + "}"
      ensures |res| == 0 ==> result == "{}"
      ensures |res| >= 1 ==> result == "{" + Join(Members(seq(|res|, k requires 0 <= k < |res| => (res[k].0, Str(res[k].1))))) + ", }"
      ensures errors == old(errors) && warnings == old(warnings)
    {
      var obj := seq(|res|, k requires 0 <= k < |res| => (res[k].0, Str(res[k].1)));
      result := PairsToJsonObjAsWritten(obj);
      if |res| >= 1 {
        PairsAsWrittenTrailingSeparator(obj);
      }
    }

    method ResultBoxes(res: seq<BoxInfo>)
      modifies this
      ensures result == ArrayOf(Converted(res, BoxInfoJson))
      ensures errors == old(errors) && warnings == old(warnings)
    {
      result := ToJsonArr(res, BoxInfoJson);
    }

    /** The envelope line; nothing in the logger changes. */
    method Write() returns (line: string)
      ensures line == Envelope(result, errors, warnings) + "\n"
    {
      var errs := ToJsonArr(errors, DiagnosticJson);
      var warns := ToJsonArr(warnings, DiagnosticJson);
      line := ToJsonObj([("result", Str(result)), ("errors", Raw(errs)), ("warnings", Raw(warns))]) + "\n";
    }
  }

  /** The console logger: it prints each call as it comes, so its final
      write emits nothing. */
  class TtyLogger {
    constructor() { }

    function IsTtyLogger(): (tty: bool)
      ensures tty
    {
      true
    }

    method Write() returns (emitted: string)
      ensures emitted == ""
    {
      emitted := "";
    }
  }
}
