/**
 * The feedback screen: the star-rating widget, the add/edit form with its
 * image upload, and the local list of feedback entries.
 */
module FeedbackClient {
  import opened Wrappers
  import opened Text
  import opened Lists
  import opened Actions

  datatype FeedbackItem = FeedbackItem(
    id: string,
    customerName: string,
    title: string,
    description: Option<string>,
    stars: int,
    imageUrl: Option<string>,
    location: Option<string>)

  // ---------- StarRating ----------

  const StarCount := 5

  /** `hovered || stars`: a hovered star of 0 means no hover. */
  function ShownStars(hovered: int, stars: int): (shown: int)
    ensures hovered != 0 ==> shown == hovered
    ensures hovered == 0 ==> shown == stars
  {
    if hovered != 0 then hovered else stars
  }

  /** Star number `star` (1 to 5) is drawn filled. */
  predicate StarFilled(star: int, hovered: int, stars: int) {
    star <= ShownStars(hovered, stars)
  }

  /** How many of the stars 1..n are drawn filled. */
  function FilledCount(n: nat, hovered: int, stars: int): nat {
    if n == 0 then 0 else FilledCount(n - 1, hovered, stars) + (if StarFilled(n, hovered, stars) then 1 else 0)
  }

  function Clamp(x: int, hi: nat): (r: nat)
    ensures r <= hi
  {
    if x < 0 then 0 else if x > hi then hi else x
  }

  /** The filled stars are a prefix of the row, as long as the shown value (clamped to the row). */
  lemma {:induction false} FilledCountIsShownValue(n: nat, hovered: int, stars: int)
    ensures FilledCount(n, hovered, stars) == Clamp(ShownStars(hovered, stars), n)
  {
    if n > 0 {
      FilledCountIsShownValue(n - 1, hovered, stars);
    }
  }

  /** Without hover a rating of 1 to 5 fills exactly that many stars; hovering shows the hovered star instead. */
  lemma StarsShownForRating(hovered: int, stars: int)
    requires 0 <= stars <= StarCount && 0 <= hovered <= StarCount
    ensures hovered == 0 ==> FilledCount(StarCount, hovered, stars) == stars
    ensures hovered != 0 ==> FilledCount(StarCount, hovered, stars) == hovered
  {
    FilledCountIsShownValue(StarCount, hovered, stars);
  }

  // ---------- The form ----------

  /** The fields of the submitted form. */
  datatype FeedbackForm = FeedbackForm(
    customerName: Option<string>,
    title: Option<string>,
    description: Option<string>,
    location: Option<string>)

  /** The form data handed to saveFeedback. */
  datatype FeedbackPayload = FeedbackPayload(
    customerName: string,
    title: string,
    description: string,
    location: string,
    image: string,
    stars: int,
    id: Option<string>)

  /** `!field?.trim()`: absent, empty or whitespace only. */
  predicate BlankField(field: Option<string>) {
    field.None? || IsBlank(field.value)
  }

  /** `field || ""` */
  function OrEmpty(field: Option<string>): string {
    if field.Some? then field.value else ""
  }

  /** What handleSubmit sends, or None when a required field is blank and nothing is sent. */
  function Payload(form: FeedbackForm, imageUrl: string, stars: int, editingId: Option<string>): (r: Option<FeedbackPayload>)
    ensures r.None? <==> BlankField(form.customerName) || BlankField(form.title)
    ensures r.Some? ==> r.value.customerName == Trim(form.customerName.value) && r.value.title == Trim(form.title.value)
    ensures r.Some? ==> r.value.description == Trim(OrEmpty(form.description))
    ensures r.Some? ==> r.value.location == Trim(OrEmpty(form.location))
    ensures r.Some? ==> r.value.image == imageUrl && r.value.stars == stars
    ensures r.Some? ==> (r.value.id.Some? <==> IsTruthy(editingId))
    ensures r.Some? && r.value.id.Some? ==> r.value.id == editingId
  {
    if BlankField(form.customerName) || BlankField(form.title) then None
    else
      Some(FeedbackPayload(
        customerName := Trim(form.customerName.value),
        title := Trim(form.title.value),
        description := Trim(OrEmpty(form.description)),
        location := Trim(OrEmpty(form.location)),
        image := imageUrl,
        stars := stars,
        id := if IsTruthy(editingId) then editingId else None))
  }

  /** Every text field sent is already trimmed, and the two required ones are not empty. */
  lemma PayloadIsTrimmed(form: FeedbackForm, imageUrl: string, stars: int, editingId: Option<string>)
    requires Payload(form, imageUrl, stars, editingId).Some?
    ensures var p := Payload(form, imageUrl, stars, editingId).value;
      && Trim(p.customerName) == p.customerName && p.customerName != []
      && Trim(p.title) == p.title && p.title != []
      && Trim(p.description) == p.description
      && Trim(p.location) == p.location
  {
    TrimIdempotent(form.customerName.value);
    TrimIdempotent(form.title.value);
    TrimIdempotent(OrEmpty(form.description));
    TrimIdempotent(OrEmpty(form.location));
  }

  // ---------- The list ----------

  /** `prev.filter(f => f.id !== id)` */
  function WithoutId(items: seq<FeedbackItem>, id: string): (r: seq<FeedbackItem>)
    ensures forall i :: 0 <= i < |r| ==> r[i].id != id
  {
    Filter(items, (f: FeedbackItem) => f.id != id)
  }

  /** Deleting removes exactly the entries with that id and keeps the others, in order. */
  lemma WithoutIdKeepsTheRest(items: seq<FeedbackItem>, id: string, x: FeedbackItem)
    ensures x in WithoutId(items, id) <==> x in items && x.id != id
    ensures x.id != id ==> multiset(WithoutId(items, id))[x] == multiset(items)[x]
    ensures IsSubsequence(WithoutId(items, id), items)
  {
    FilterMembership(items, (f: FeedbackItem) => f.id != id, x);
    FilterMultiset(items, (f: FeedbackItem) => f.id != id, x);
    FilterIsSubsequence(items, (f: FeedbackItem) => f.id != id);
  }

  /** The client state of the feedback screen. */
  class FeedbackState {
    var feedback: seq<FeedbackItem>
    var showForm: bool
    var isSubmitting: bool
    var isUploading: bool
    var imageUrl: string
    var editingId: Option<string>
    var selectedStars: int

    constructor (initialFeedback: seq<FeedbackItem>)
      ensures feedback == initialFeedback
      ensures !showForm && !isSubmitting && !isUploading
      ensures imageUrl == "" && editingId.None? && selectedStars == 5
    {
      feedback := initialFeedback;
      showForm, isSubmitting, isUploading := false, false, false;
      imageUrl, editingId, selectedStars := "", None, 5;
    }

    method UploadStart()
      modifies this`isUploading
      ensures isUploading
    {
      isUploading := true;
    }

    method UploadSuccess(url: string)
      modifies this`imageUrl, this`isUploading
      ensures imageUrl == url && !isUploading
    {
      imageUrl := url;
      isUploading := false;
    }

    /** The form's star widget: a click on star `star` (1 to 5) selects it. */
    method SelectStars(star: int)
      requires 1 <= star <= StarCount
      modifies this`selectedStars
      ensures selectedStars == star
    {
      selectedStars := star;
    }

    /** A failed upload clears the flag; the image field keeps what it had. */
    method UploadError()
      modifies this`isUploading
      ensures !isUploading
    {
      isUploading := false;
    }

    /** The button that removes the chosen image from the form. */
    method RemoveImage()
      modifies this`imageUrl
      ensures imageUrl == ""
    {
      imageUrl := "";
    }

    method Edit(item: FeedbackItem)
      modifies this`editingId, this`imageUrl, this`selectedStars, this`showForm
      ensures editingId == Some(item.id)
      ensures imageUrl == OrEmpty(item.imageUrl)
      ensures selectedStars == item.stars && showForm
    {
      editingId := Some(item.id);
      imageUrl := OrEmpty(item.imageUrl);
      selectedStars := item.stars;
      showForm := true;
    }

    method ResetForm()
      modifies this`editingId, this`imageUrl, this`selectedStars, this`showForm
      ensures editingId.None? && imageUrl == "" && selectedStars == 5 && !showForm
    {
      editingId := None;
      imageUrl := "";
      selectedStars := 5;
      showForm := false;
    }

    /** The "Add Feedback" button: an empty form for a new entry. */
    method OpenNewForm()
      modifies this`editingId, this`imageUrl, this`selectedStars, this`showForm
      ensures editingId.None? && imageUrl == "" && selectedStars == 5 && showForm
    {
      editingId := None;
      imageUrl := "";
      selectedStars := 5;
      showForm := true;
    }

    /** handleSubmit. `reply` is what saveFeedback answers if it is called;
        the result is the payload sent, None when saveFeedback is not called. */
    method Submit(form: FeedbackForm, reply: ActionResult) returns (sent: Option<FeedbackPayload>)
      modifies this`isSubmitting, this`editingId, this`imageUrl, this`selectedStars, this`showForm
      ensures sent == Payload(form, old(imageUrl), old(selectedStars), old(editingId))
      ensures !isSubmitting
      ensures sent.Some? && reply == Success ==>
        editingId.None? && imageUrl == "" && selectedStars == 5 && !showForm
      ensures sent.None? || reply != Success ==>
        editingId == old(editingId) && imageUrl == old(imageUrl) &&
        selectedStars == old(selectedStars) && showForm == old(showForm)
    {
      isSubmitting := true;
      sent := Payload(form, imageUrl, selectedStars, editingId);
      if sent.None? {
        isSubmitting := false;
        return;
      }
      if reply == Success {
        ResetForm();
      }
      isSubmitting := false;
    }

    /** handleDelete. `confirmed` is the answer to the confirmation dialog and `reply`
        what deleteFeedback answers; the result tells whether deleteFeedback was called. */
    method Delete(id: string, confirmed: bool, reply: ActionResult) returns (called: bool)
      modifies this`feedback
      ensures called == confirmed
      ensures feedback == if confirmed && reply == Success then WithoutId(old(feedback), id) else old(feedback)
    {
      if !confirmed {
        return false;
      }
      called := true;
      if reply == Success {
        feedback := WithoutId(feedback, id);
      }
    }
  }
}
