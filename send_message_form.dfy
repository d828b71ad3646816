/** The organization console's send-message dialog: the chosen message type,
    the draft fields of both kinds of message, and what a submit sends. */
module SendMessageForm {
  import opened Js

  /** The dialog's state. Announcements and funeral notices keep separate drafts. */
  class Form {
    var kind: string
    var announcementTitle: string
    var announcementPlace: string
    var announcementTime: string
    var announcementContent: string
    var funeralPlace: string
    var funeralAddress: string
    var deathType: string
    var funeralContent: string

    predicate AnnouncementCleared()
      reads this
    {
      announcementTitle == "" && announcementPlace == "" && announcementTime == "" && announcementContent == ""
    }

    predicate FuneralCleared()
      reads this
    {
      funeralPlace == "" && funeralAddress == "" && deathType == "new" && funeralContent == ""
    }

    /** A new dialog: an announcement with both drafts empty and "new" as the death type. */
    constructor ()
      ensures kind == "announcement" && AnnouncementCleared() && FuneralCleared()
    {
      kind := "announcement";
      announcementTitle, announcementPlace, announcementTime, announcementContent := "", "", "", "";
      funeralPlace, funeralAddress, deathType, funeralContent := "", "", "new", "";
    }

    /** The payload a submit hands to the caller: the type, plus the draft of that
        type's fields; a type with no draft sends the type alone. */
    function Payload(): Obj
      reads this
    {
      if kind == "announcement" then
        map["type" := Str(kind), "title" := Str(announcementTitle), "place" := Str(announcementPlace),
            "time" := Str(announcementTime), "content" := Str(announcementContent)]
      else if kind == "funeral" then
        map["type" := Str(kind), "place" := Str(funeralPlace), "address" := Str(funeralAddress),
            "deathType" := Str(deathType), "content" := Str(funeralContent)]
      else map["type" := Str(kind)]
    }

    /** `handleSubmit`: send the payload and clear the submitted type's draft; the
        other draft and the chosen type stay as they were. */
    method HandleSubmit() returns (payload: Obj)
      modifies this
      ensures payload == old(Payload())
      ensures kind == old(kind)
      ensures old(kind) == "announcement" ==> AnnouncementCleared()
      ensures old(kind) != "announcement" ==>
        announcementTitle == old(announcementTitle) && announcementPlace == old(announcementPlace) &&
        announcementTime == old(announcementTime) && announcementContent == old(announcementContent)
      ensures old(kind) == "funeral" ==> FuneralCleared()
      ensures old(kind) != "funeral" ==>
        funeralPlace == old(funeralPlace) && funeralAddress == old(funeralAddress) &&
        deathType == old(deathType) && funeralContent == old(funeralContent)
    {
      var expected := Payload();
      payload := map["type" := Str(kind)];
      if kind == "announcement" {
        payload := payload + map["title" := Str(announcementTitle), "place" := Str(announcementPlace),
                                 "time" := Str(announcementTime), "content" := Str(announcementContent)];
        assert payload == expected;
        announcementTitle, announcementPlace, announcementTime, announcementContent := "", "", "", "";
      } else if kind == "funeral" {
        payload := payload + map["place" := Str(funeralPlace), "address" := Str(funeralAddress),
                                 "deathType" := Str(deathType), "content" := Str(funeralContent)];
        assert payload == expected;
        funeralPlace, funeralAddress, deathType, funeralContent := "", "", "new", "";
      }
    }

    /** `resetForm`: both drafts cleared; the chosen type is kept. */
    method ResetForm()
      modifies this
      ensures AnnouncementCleared() && FuneralCleared() && kind == old(kind)
    {
      announcementTitle, announcementPlace, announcementTime, announcementContent := "", "", "", "";
      funeralPlace, funeralAddress, deathType, funeralContent := "", "", "new", "";
    }

    /** The dialog's open-change handler: closing clears both drafts; the new
        open state is passed on to the caller. */
    method OnOpenChange(newOpen: bool) returns (passedOn: bool)
      modifies this
      ensures passedOn == newOpen && kind == old(kind)
      ensures !newOpen ==> AnnouncementCleared() && FuneralCleared()
      ensures newOpen ==> Payload() == old(Payload()) && AnnouncementCleared() == old(AnnouncementCleared()) &&
                          FuneralCleared() == old(FuneralCleared())
    {
      if !newOpen {
        ResetForm();
      }
      passedOn := newOpen;
    }
  }

  /** The payload's properties: always the type; for an announcement its four
      fields and no funeral field; for a funeral notice its four fields and no
      announcement field. */
  lemma PayloadKeys(f: Form)
    ensures f.Payload()["type"] == Str(f.kind)
    ensures f.kind == "announcement" ==> f.Payload().Keys == {"type", "title", "place", "time", "content"}
    ensures f.kind == "funeral" ==> f.Payload().Keys == {"type", "place", "address", "deathType", "content"}
    ensures f.kind != "announcement" && f.kind != "funeral" ==> f.Payload().Keys == {"type"}
  {
  }
}
