/** Diagnostic tags carried by a thrown error (src/utils/error.ts). */
module ErrorTags {
  import opened Base

  /** The tags an error holds after tags `tags` are added to an error whose
      tags were `existing`: stored as given when there were none, otherwise
      `{...existing, ...tags}`. */
  function MergeTags(existing: Option<Tags>, tags: Tags): (merged: Tags)
    ensures forall k :: k in tags ==> k in merged && merged[k] == tags[k]
    ensures existing.Some? ==> forall k :: k in existing.value && k !in tags ==>
      k in merged && merged[k] == existing.value[k]
    ensures forall k :: k in merged ==> k in tags || (existing.Some? && k in existing.value)
  {
    match existing
    case None => tags
    case Some(prior) => prior + tags
  }

  /** Adding the same tags a second time changes nothing. */
  lemma MergeTagsIdempotent(existing: Option<Tags>, tags: Tags)
    ensures MergeTags(Some(MergeTags(existing, tags)), tags) == MergeTags(existing, tags)
  {
    var m := MergeTags(existing, tags);
    assert m + tags == m;
  }

  /** An error object whose `tags` property is updated in place. */
  class TaggedError {
    var tags: Option<Tags>

    constructor (tags: Option<Tags>)
      ensures this.tags == tags
    {
      this.tags := tags;
    }
  }

  /** `addDiagnosticTagsToError`: assigns or merges the tags and returns the
      error's tags after the update. */
  method AddDiagnosticTagsToError(error: TaggedError, tags: Tags) returns (r: Tags)
    modifies error
    ensures error.tags == Some(MergeTags(old(error.tags), tags))
    ensures r == MergeTags(old(error.tags), tags)
  {
    if error.tags.None? {
      error.tags := Some(tags);
    } else {
      error.tags := Some(error.tags.value + tags);
    }
    r := error.tags.value;
  }

  /** `getDiagnosticTagsFromError`: the stored tags, or `{}`. */
  function GetDiagnosticTagsFromError(error: TaggedError): (r: Tags)
    reads error
    ensures error.tags.Some? ==> r == error.tags.value
    ensures error.tags.None? ==> r == map[]
  {
    error.tags.GetOr(map[])
  }

  /** Reading the tags back after `addDiagnosticTagsToError` gives the
      merge it stored: every added tag with its new value, the earlier tags
      it did not override, and no other key. */
  lemma GetAfterAdd(error: TaggedError, prior: Option<Tags>, tags: Tags)
    requires error.tags == Some(MergeTags(prior, tags))
    ensures GetDiagnosticTagsFromError(error) == MergeTags(prior, tags)
    ensures forall k :: k in tags ==>
      k in GetDiagnosticTagsFromError(error) && GetDiagnosticTagsFromError(error)[k] == tags[k]
    ensures prior.Some? ==> forall k :: k in prior.value && k !in tags ==>
      k in GetDiagnosticTagsFromError(error) && GetDiagnosticTagsFromError(error)[k] == prior.value[k]
    ensures forall k :: k in GetDiagnosticTagsFromError(error) ==> k in tags || (prior.Some? && k in prior.value)
  {
  }

  /** The same update on an error carried as a value: the tags change as
      `addDiagnosticTagsToError` changes them, and nothing else does. */
  function TagFault(f: Fault, tags: Tags): (r: Fault)
    ensures r.tags == Some(MergeTags(f.tags, tags))
    ensures r.cls == f.cls && r.message == f.message && r.httpStatus == f.httpStatus
  {
    f.(tags := Some(MergeTags(f.tags, tags)))
  }
}
