/**
 * The confirmation dialog for deleting an invoice
 * (src/components/DeleteConfirmationModal.jsx). The parent's `onConfirm`
 * and `onClose` callbacks are recorded in an event log, in call order.
 */
module DeleteModal {
  import opened Text

  datatype Callback = Confirmed | Closed

  datatype KeyPress = Enter | Escape | OtherKey

  /** The typed text, lower-cased, is exactly "delete". */
  predicate IsConfirmValid(confirmText: string)
    ensures IsConfirmValid(confirmText) ==> |confirmText| == 6
  {
    Lower(confirmText) == "delete"
  }

  /** Any capitalisation of "delete" is accepted; nothing longer or shorter, spaces included. */
  lemma {:induction false} ConfirmValidSpec(confirmText: string)
    ensures IsConfirmValid(confirmText) ==> |confirmText| == 6
    ensures IsConfirmValid(confirmText) <==>
              |confirmText| == 6 && forall k | 0 <= k < 6 :: LowerChar(confirmText[k]) == "delete"[k]
  {
  }

  lemma {:induction false} UpperCaseConfirms(confirmText: string)
    requires confirmText == "DELETE"
    ensures IsConfirmValid(confirmText)
  {
    assert Lower(confirmText) == "delete" by {
      assert forall k | 0 <= k < 6 :: LowerChar(confirmText[k]) == "delete"[k];
    }
  }

  class DeleteModalState {
    var confirmText: string
    var calls: seq<Callback>

    constructor ()
      ensures confirmText == "" && calls == []
    {
      confirmText, calls := "", [];
    }

    /** The input's `onChange`. */
    method SetText(text: string)
      modifies this
      ensures confirmText == text && calls == old(calls)
    {
      confirmText := text;
    }

    /**
     * `handleConfirm`: only a valid text confirms; it then clears the text
     * and closes. An invalid text does nothing at all.
     */
    method Confirm()
      modifies this
      ensures IsConfirmValid(old(confirmText)) ==> calls == old(calls) + [Confirmed, Closed] && confirmText == ""
      ensures !IsConfirmValid(old(confirmText)) ==> calls == old(calls) && confirmText == old(confirmText)
      ensures Confirmed in calls[|old(calls)|..] <==> IsConfirmValid(old(confirmText))
    {
      if IsConfirmValid(confirmText) {
        calls := calls + [Confirmed];
        confirmText := "";
        calls := calls + [Closed];
      }
    }

    /** `handleClose`: always clears the text and closes, never confirms. */
    method Close()
      modifies this
      ensures calls == old(calls) + [Closed] && confirmText == ""
    {
      confirmText := "";
      calls := calls + [Closed];
    }

    /** The input's `onKeyDown`: Enter confirms when the text is valid, Escape closes. */
    method KeyDown(key: KeyPress)
      modifies this
      ensures key == Enter && IsConfirmValid(old(confirmText)) ==>
                calls == old(calls) + [Confirmed, Closed] && confirmText == ""
      ensures key == Escape ==> calls == old(calls) + [Closed] && confirmText == ""
      ensures key == OtherKey || (key == Enter && !IsConfirmValid(old(confirmText))) ==>
                calls == old(calls) && confirmText == old(confirmText)
      ensures Confirmed in calls[|old(calls)|..] <==> key == Enter && IsConfirmValid(old(confirmText))
    {
      if key == Enter && IsConfirmValid(confirmText) {
        Confirm();
      } else if key == Escape {
        Close();
      }
    }
  }
}
