/**
 * The tags screen: a paginated table of tags, one modal that creates or
 * edits a tag, and one that confirms a deletion.
 *
 * The form widget is outside the model: what `form.validateFields()` settles
 * with is an input of `HandleOk`. The create, update and delete mutations are
 * awaited without `.unwrap()`, so a failed request resolves rather than
 * throws; the only failure the handler sees is a rejected validation.
 */
module TagsPage {
  import opened Js
  import opened Paging

  /** A tag's editable fields. */
  datatype TagFields = TagFields(tagName: string, tagStatus: bool)

  /** A table row `{ ...tag, key: tag._id }`. */
  type TagRow = Row<TagFields>

  /** The external calls the screen issues, in order. */
  datatype TagCall = CreateTag(values: TagFields) | UpdateTag(id: string, values: TagFields)
                   | DeleteTag(id: string) | Refetch

  class TagsScreen {
    var isModalOpen: bool
    var isDeleteModalOpen: bool
    var isEdit: bool
    var currentTag: Option<TagRow>
    var currentPage: int
    var paginatedData: seq<TagRow>

    constructor ()
      ensures !isModalOpen && !isDeleteModalOpen && !isEdit && currentTag == None
      ensures currentPage == 1 && paginatedData == []
    {
      isModalOpen, isDeleteModalOpen, isEdit := false, false, false;
      currentTag, currentPage, paginatedData := None, 1, [];
    }

    /** The pagination effect: recompute the page once the list has loaded. */
    method RefreshPage(data: Option<seq<Doc<TagFields>>>)
      modifies this`paginatedData
      ensures paginatedData == if data.Some? then Page(data.value, currentPage, PageSize) else old(paginatedData)
    {
      if data.Some? {
        paginatedData := Page(data.value, currentPage, PageSize);
      }
    }

    /** The pager's `onChange`. */
    method TableChange(page: int)
      modifies this`currentPage
      ensures currentPage == page
    {
      currentPage := page;
    }

    /** Open the create (no tag) or edit (a tag) modal. */
    method ShowModal(tag: Option<TagRow>)
      modifies this`currentTag, this`isEdit, this`isModalOpen
      ensures currentTag == tag && isEdit == tag.Some? && isModalOpen
      ensures isDeleteModalOpen == old(isDeleteModalOpen)
      ensures currentPage == old(currentPage) && paginatedData == old(paginatedData)
    {
      currentTag := tag;
      isEdit := tag.Some?;
      isModalOpen := true;
    }

    /** Open the delete confirmation for `tag`. */
    method ShowDeleteModal(tag: TagRow)
      modifies this`currentTag, this`isDeleteModalOpen
      ensures currentTag == Some(tag) && isDeleteModalOpen
      ensures isModalOpen == old(isModalOpen) && isEdit == old(isEdit)
      ensures currentPage == old(currentPage) && paginatedData == old(paginatedData)
    {
      currentTag := Some(tag);
      isDeleteModalOpen := true;
    }

    /**
     * Submit the modal: update `currentTag.key` when editing a current tag,
     * create otherwise; then close the modal and refetch. A rejected
     * validation issues nothing and leaves the modal as it was; a resolved
     * one carries a non-empty `tagName`, the field's `required` rule.
     */
    method HandleOk(validated: Outcome<TagFields>) returns (calls: seq<TagCall>)
      requires validated.Resolved? ==> validated.value.tagName != ""
      modifies this`isModalOpen
      ensures validated.Rejected? ==> calls == [] && isModalOpen == old(isModalOpen)
      ensures validated.Resolved? ==> !isModalOpen
      ensures validated.Resolved? && isEdit && currentTag.Some? ==>
        calls == [UpdateTag(currentTag.value.key, validated.value), Refetch]
      ensures validated.Resolved? && !(isEdit && currentTag.Some?) ==>
        calls == [CreateTag(validated.value), Refetch]
    {
      calls := [];
      if validated.Rejected? {
        return;
      }
      var values := validated.value;
      if isEdit && currentTag.Some? {
        calls := calls + [UpdateTag(currentTag.value.key, values)];
      } else {
        calls := calls + [CreateTag(values)];
      }
      isModalOpen := false;
      calls := calls + [Refetch];
    }

    /** Confirm the deletion: nothing without a current tag; otherwise delete, close this modal only, refetch. */
    method HandleDeleteOk() returns (calls: seq<TagCall>)
      modifies this`isDeleteModalOpen
      ensures currentTag.None? ==> calls == [] && isDeleteModalOpen == old(isDeleteModalOpen)
      ensures currentTag.Some? ==> calls == [DeleteTag(currentTag.value.key), Refetch] && !isDeleteModalOpen
    {
      calls := [];
      if currentTag.Some? {
        calls := [DeleteTag(currentTag.value.key)];
        isDeleteModalOpen := false;
        calls := calls + [Refetch];
      }
    }

    /** Cancelling the edit modal closes it and nothing else. */
    method HandleCancel()
      modifies this`isModalOpen
      ensures !isModalOpen
    {
      isModalOpen := false;
    }

    /** Cancelling the delete confirmation closes it and nothing else. */
    method HandleDeleteCancel()
      modifies this`isDeleteModalOpen
      ensures !isDeleteModalOpen
    {
      isDeleteModalOpen := false;
    }
  }

  /** Editing a tag and saving it sends an update for that tag's `_id`, then closes the modal. */
  method EditThenSave(tag: TagRow, values: TagFields) returns (calls: seq<TagCall>)
    requires values.tagName != ""
    ensures calls == [UpdateTag(tag.key, values), Refetch]
  {
    var screen := new TagsScreen();
    screen.ShowModal(Some(tag));
    calls := screen.HandleOk(Resolved(values));
    assert !screen.isModalOpen;
  }
}
