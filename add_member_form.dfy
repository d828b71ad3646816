/** The organization console's add-member dialog: a name and a phone number,
    both required to be more than whitespace. */
module AddMemberForm {
  import opened Opt
  import opened Text

  /** What the dialog hands to its caller. */
  datatype MemberDraft = MemberDraft(name: string, phone: string)

  /** `!s.trim()`: nothing but whitespace. */
  predicate IsBlank(s: string) {
    Trim(s) == ""
  }

  class Form {
    var name: string
    var phone: string

    constructor ()
      ensures name == "" && phone == ""
    {
      name, phone := "", "";
    }

    /** `handleSubmit`: when either field is blank, alert and keep the fields;
        otherwise hand over both values as typed (untrimmed) and clear the fields. */
    method HandleSubmit() returns (r: Option<MemberDraft>)
      modifies this
      ensures r.Some? <==> !AllSpace(old(name)) && !AllSpace(old(phone))
      ensures r.Some? ==> r.value == MemberDraft(old(name), old(phone)) && name == "" && phone == ""
      ensures r.None? ==> name == old(name) && phone == old(phone)
    {
      TrimEmptyIff(name);
      TrimEmptyIff(phone);
      if IsBlank(name) || IsBlank(phone) {
        return None;
      }
      r := Some(MemberDraft(name, phone));
      name, phone := "", "";
    }
  }

  /** A name with text inside surrounding spaces is accepted and sent with its spaces. */
  lemma SpacesKept()
    ensures !IsBlank(" Ann ") && IsBlank(" \t\n")
  {
    TrimEmptyIff(" Ann ");
    assert !IsSpace(" Ann "[1]);
    TrimEmptyIff(" \t\n");
  }
}
