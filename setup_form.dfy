/** The setup form (frontend/src/components/SetupForm.jsx): a chosen resume
    file and a skills text, a submit guard, and the submit button's state.
    Files are represented by their name and bytes. */
module SetupForm {
  import opened Common
  import opened Text

  /** A file the user picked. */
  datatype File = File(name: string, content: seq<byte>)

  /** What a submit does besides `preventDefault`, which it always calls:
      hand the file and the skills text to `onConfirm`, or show an alert. */
  datatype SubmitAction = Confirmed(file: File, skills: string) | Alerted(message: string)

  const AlertMessage := "Please upload your resume and list the skills you want to be interviewed on."

  /** The submit guard: a file is chosen and the skills are not blank. */
  predicate CanSubmit(resumeFile: Option<File>, skills: string)
  {
    resumeFile.Some? && Strip(skills) != ""
  }

  /** The guard in terms of its inputs: blank means whitespace only. */
  lemma CanSubmitIffNotBlank(resumeFile: Option<File>, skills: string)
    ensures CanSubmit(resumeFile, skills) <==> resumeFile.Some? && !AllSpace(skills)
  {
    StripEmptyIffAllSpace(skills);
  }

  /** The submit button's `disabled`: the button is enabled exactly when
      the form is not busy, a file is chosen and the skills hold more than
      whitespace, so an enabled button always leads to `onConfirm`. */
  function SubmitDisabled(disabled: bool, resumeFile: Option<File>, skills: string): (r: bool)
    ensures !r <==> !disabled && resumeFile.Some? && !AllSpace(skills)
    ensures !r ==> CanSubmit(resumeFile, skills)
  {
    StripEmptyIffAllSpace(skills);
    disabled || resumeFile.None? || Strip(skills) == ""
  }

  /** The button's label. */
  function Label(disabled: bool): (r: string)
    ensures r == "Starting..." <==> disabled
  {
    if disabled then "Starting..." else "Start Interview"
  }

  class Form {
    /** `resumeFile`. */
    var resumeFile: Option<File>
    /** `skills`, as typed. */
    var skills: string

    /** A fresh form: no file, no skills. */
    constructor ()
      ensures resumeFile == None && skills == ""
    {
      resumeFile := None;
      skills := "";
    }

    /** `handleFileChange` with the input's file list: the first file
        replaces the chosen one; an empty list keeps it. */
    method HandleFileChange(files: seq<File>)
      modifies this
      ensures files != [] ==> resumeFile == Some(files[0])
      ensures files == [] ==> resumeFile == old(resumeFile)
      ensures skills == old(skills)
    {
      if |files| > 0 {
        var file := files[0];
        resumeFile := Some(file);
      }
    }

    /** The skills input's `onChange`. */
    method SetSkills(value: string)
      modifies this
      ensures skills == value && resumeFile == old(resumeFile)
    {
      skills := value;
    }

    /** `handleSubmit`: the default is always prevented; `onConfirm` gets
        the file and the untrimmed skills exactly when the guard holds,
        and otherwise the user is alerted. The form itself is unchanged. */
    method HandleSubmit() returns (defaultPrevented: bool, action: SubmitAction)
      ensures defaultPrevented
      ensures action.Confirmed? <==> CanSubmit(resumeFile, skills)
      ensures action.Confirmed? ==> action == Confirmed(resumeFile.value, skills)
      ensures action.Alerted? ==> action.message == AlertMessage
    {
      defaultPrevented := true;
      if resumeFile.Some? && Strip(skills) != "" {
        action := Confirmed(resumeFile.value, skills);
      } else {
        action := Alerted(AlertMessage);
      }
    }
  }
}
