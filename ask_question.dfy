/** The ask-a-question form: title, description and tag checks in that order, the payload it
    posts, and the submitting flag around the post. */
module AskQuestion {
  import opened Wrappers
  import opened Text
  import opened Helpers
  import opened TagSelection
  import opened Seqs
  import RegisterPage

  /** The page's tag selector takes at most this many tags. */
  const TagCap := 5

  const TagRequired := "At least one tag is required"

  /** The body of `POST /questions`. */
  datatype QuestionPayload = QuestionPayload(title: string, description: string, tags: seq<string>)

  datatype Submission = Rejected(message: string) | Post(payload: QuestionPayload)

  /** `handleSubmit`'s checks, first failure wins. `descriptionText` is the text the browser
      extracts from the description's markup; the description itself is posted as entered and
      only the title is trimmed. */
  function CheckQuestion(title: string, description: string, descriptionText: string, tags: seq<string>)
    : (r: Submission)
    ensures r.Post? <==> ValidateQuestionTitle(title) == Valid
                         && ValidateQuestionDescription(descriptionText) == Valid && |tags| > 0
    ensures r.Post? ==> r.payload == QuestionPayload(Trim(title), description, tags)
    ensures ValidateQuestionTitle(title).Invalid? ==> r == Rejected(ValidateQuestionTitle(title).message)
    ensures ValidateQuestionTitle(title) == Valid && ValidateQuestionDescription(descriptionText).Invalid?
            ==> r == Rejected(ValidateQuestionDescription(descriptionText).message)
    ensures (ValidateQuestionTitle(title) == Valid && ValidateQuestionDescription(descriptionText) == Valid
             && tags == []) ==> r == Rejected(TagRequired)
  {
    var titleCheck := ValidateQuestionTitle(title);
    var descriptionCheck := ValidateQuestionDescription(descriptionText);
    if titleCheck.Invalid? then Rejected(titleCheck.message)
    else if descriptionCheck.Invalid? then Rejected(descriptionCheck.message)
    else if |tags| == 0 then Rejected(TagRequired)
    else Post(QuestionPayload(Trim(title), description, tags))
  }

  /** A posted question has a non-blank title with no surrounding white space, at least
      twenty characters of description text, and, when its tags come from the page's tag
      selector, between one and five distinct tags. */
  lemma PostedQuestionShape(title: string, description: string, descriptionText: string, tags: seq<string>)
    requires CheckQuestion(title, description, descriptionText, tags).Post?
    ensures var p := CheckQuestion(title, description, descriptionText, tags).payload;
            && p.title != "" && Trim(p.title) == p.title && |descriptionText| >= 20
            && (WellFormed(tags, TagCap) ==> 1 <= |p.tags| <= TagCap && NoDuplicates(p.tags))
  {
    ValidTitleHasText(title);
    var t := Trim(title);
    assert t[0] == TrimStart(title)[0];
    TrimNoSpaceEnds(t);
  }

  class AskForm {
    var title: string
    var description: string
    var tags: seq<string>
    var submitting: bool

    constructor ()
      ensures title == "" && description == "" && tags == [] && !submitting
    {
      title := "";
      description := "";
      tags := [];
      submitting := false;
    }

    /** The synchronous part of `handleSubmit`: the checks, and `submitting` set when the post
        goes out. */
    method BeginSubmit(descriptionText: string) returns (s: Submission)
      modifies this
      ensures s == CheckQuestion(title, description, descriptionText, tags)
      ensures submitting == (s.Post? || old(submitting))
      ensures title == old(title) && description == old(description) && tags == old(tags)
    {
      s := CheckQuestion(title, description, descriptionText, tags);
      submitting := s.Post? || submitting;
    }

    /** The `finally` after the post; returns the toast shown. */
    method FinishSubmit(succeeded: bool, serverMessage: Option<string>) returns (toast: string)
      modifies this
      ensures !submitting
      ensures succeeded ==> toast == "Question posted successfully!"
      ensures !succeeded ==> toast == RegisterPage.FailureMessage(serverMessage, "Failed to post question")
      ensures title == old(title) && description == old(description) && tags == old(tags)
    {
      toast := if succeeded then "Question posted successfully!" else RegisterPage.FailureMessage(serverMessage, "Failed to post question");
      submitting := false;
    }
  }
}
