/**
 * The "new category" page's form handler: one call to saveCategory, then a
 * redirect chosen by the error code it reports.
 */
module NewCategoryPage {
  import opened Actions

  const ListPath := "/categories"
  const MissingNamePath := "/categories/new?error=missing_name"
  const DuplicateIdPath := "/categories/new?error=duplicate_id"

  /** What handleSubmit does, in order. */
  datatype Step = CallSaveCategory | Redirect(location: string)

  /** The redirect that follows saveCategory's answer. */
  function RedirectFor(reply: ActionResult): (location: string)
    ensures location == MissingNamePath <==> reply == Error("missing_name")
    ensures location == DuplicateIdPath <==> reply == Error("duplicate_id")
    ensures location == ListPath <==> reply != Error("missing_name") && reply != Error("duplicate_id")
  {
    if reply == Error("missing_name") then MissingNamePath
    else if reply == Error("duplicate_id") then DuplicateIdPath
    else ListPath
  }

  /** handleSubmit as the sequence of its steps; an exception from saveCategory
      propagates and no redirect follows. */
  function HandleSubmit(reply: ActionResult): (steps: seq<Step>)
    ensures |steps| >= 1 && steps[0] == CallSaveCategory
    ensures forall i :: 1 <= i < |steps| ==> steps[i].Redirect?
    ensures reply.Threw? <==> |steps| == 1
    ensures !reply.Threw? ==> |steps| == 2 && steps[1] == Redirect(RedirectFor(reply))
  {
    if reply.Threw? then [CallSaveCategory] else [CallSaveCategory, Redirect(RedirectFor(reply))]
  }

  /** Success and every unrecognised error code both land on the category list. */
  lemma UnrecognisedErrorsGoToList(code: string)
    requires code != "missing_name" && code != "duplicate_id"
    ensures HandleSubmit(Error(code)) == [CallSaveCategory, Redirect(ListPath)]
    ensures HandleSubmit(Success) == [CallSaveCategory, Redirect(ListPath)]
  {
  }
}
