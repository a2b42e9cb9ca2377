/** The upload check run before any parsing: a file must be present and named `*.xlsx`. */
module Upload {
  import opened Wrappers

  const NoFileMessage := "No file selected."
  const FormatMessage := "Invalid file format. Only .xlsx files are allowed."
  const Extension := ".xlsx"

  /** `s.endswith(suffix)` */
  predicate EndsWith(s: string, suffix: string) {
    |suffix| <= |s| && s[|s| - |suffix|..] == suffix
  }

  /**
   * `validate_file`: the uploaded file's name, `None` when the request has no
   * file part; the answer is the error message, or `None` when the file is accepted.
   */
  function ValidateFile(filename: Option<string>): (r: Option<string>)
    ensures r == None || r == Some(NoFileMessage) || r == Some(FormatMessage)
  {
    if filename.None? || filename.value == "" then Some(NoFileMessage)
    else if !EndsWith(filename.value, Extension) then Some(FormatMessage)
    else None
  }

  /** A name is accepted exactly when it is some stem followed by `.xlsx` (the stem may be empty). */
  lemma AcceptedNames(name: string)
    ensures ValidateFile(Some(name)) == None <==> exists stem :: name == stem + Extension
  {
    if ValidateFile(Some(name)) == None {
      var stem := name[..|name| - |Extension|];
      assert name == stem + Extension;
    }
    if exists stem :: name == stem + Extension {
      var stem :| name == stem + Extension;
      assert name[|name| - |Extension|..] == Extension;
    }
  }

  /** A missing file or an empty name is reported as missing, ahead of the format check. */
  lemma MissingFirst(filename: Option<string>)
    ensures ValidateFile(filename) == Some(NoFileMessage) <==> filename.None? || filename.value == ""
  {
  }

  /** A present, non-empty name that lacks the exact, case-sensitive `.xlsx` ending is a format error. */
  lemma WrongFormat(name: string)
    requires name != ""
    ensures ValidateFile(Some(name)) == Some(FormatMessage) <==> !EndsWith(name, Extension)
  {
  }

  lemma ValidateExamples()
    ensures ValidateFile(None) == Some(NoFileMessage)
    ensures ValidateFile(Some("")) == Some(NoFileMessage)
    ensures ValidateFile(Some("panel.xlsx")) == None
    ensures ValidateFile(Some("panel.XLSX")) == Some(FormatMessage)
    ensures ValidateFile(Some("panel.xls")) == Some(FormatMessage)
  {
    assert "panel.xlsx" == "panel" + Extension;
    AcceptedNames("panel.xlsx");
  }
}
