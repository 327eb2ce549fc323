/** The tag lists of the seller form (specialties, certifications) and of
    the profile editor (shopping preferences): an entry is added from a
    pending text input, trimmed, unless it is blank or already listed; it
    is removed by filtering out every equal entry. */
module Tags {
  import opened Text
  import Seqs

  /** What the add and remove handlers keep true of a list: every entry is
      trimmed and non-empty, and no entry occurs twice. */
  predicate WellFormed(tags: seq<string>) {
    && Seqs.NoDuplicates(tags)
    && forall i :: 0 <= i < |tags| ==> IsTrimmed(tags[i]) && tags[i] != ""
  }

  /** A tag list together with the text of its pending input box. */
  datatype TagInput = TagInput(tags: seq<string>, pending: string)

  /** The add handler's guard: the trimmed input is non-blank and is not
      already an entry (exact string match). */
  predicate Accepts(tags: seq<string>, pending: string) {
    Trim(pending) != "" && Trim(pending) !in tags
  }

  /** The add handler: on an accepted input the trimmed text is appended
      and the input box is cleared; otherwise nothing changes. */
  function Add(tags: seq<string>, pending: string): (r: TagInput)
    ensures Accepts(tags, pending) <==> |r.tags| == |tags| + 1
    ensures Accepts(tags, pending) ==> r.tags[..|tags|] == tags && r.tags[|tags|] == Trim(pending) && r.pending == ""
    ensures !Accepts(tags, pending) ==> r == TagInput(tags, pending)
  {
    var t := Trim(pending);
    if t != "" && t !in tags then TagInput(tags + [t], "") else TagInput(tags, pending)
  }

  /** The remove handler: `tags.filter(x => x !== tag)`. */
  function Remove(tags: seq<string>, tag: string): (r: seq<string>)
    ensures tag !in r
    ensures forall x :: x in r <==> x in tags && x != tag
    ensures Seqs.IsSubsequence(r, tags)
    ensures forall x :: multiset(r)[x] == if x == tag then 0 else multiset(tags)[x]
  {
    Seqs.FilterIsSubsequence(tags, x => x != tag);
    Seqs.Filter(tags, x => x != tag)
  }

  /** Adding keeps a well-formed list well-formed. */
  lemma AddKeepsWellFormed(tags: seq<string>, pending: string)
    requires WellFormed(tags)
    ensures WellFormed(Add(tags, pending).tags)
  {
    if Accepts(tags, pending) {
      var r := Add(tags, pending).tags;
      forall i, j | 0 <= i < j < |r| ensures r[i] != r[j] {
        if j == |tags| {
          assert r[i] == tags[i];
        }
      }
    }
  }

  /** Removing keeps a well-formed list well-formed. */
  lemma RemoveKeepsWellFormed(tags: seq<string>, tag: string)
    requires WellFormed(tags)
    ensures WellFormed(Remove(tags, tag))
  {
    Seqs.FilterNoDuplicates(tags, x => x != tag);
  }

  /** Removing a value that is not listed changes nothing. */
  lemma RemoveAbsent(tags: seq<string>, tag: string)
    requires tag !in tags
    ensures Remove(tags, tag) == tags
  {
    Seqs.FilterKeepsAll(tags, x => x != tag);
  }

  /** Removing what an accepted add appended gives back the list as it was
      before, when that list did not hold the entry. */
  lemma RemoveUndoesAdd(tags: seq<string>, pending: string)
    requires Accepts(tags, pending)
    ensures Remove(Add(tags, pending).tags, Trim(pending)) == tags
  {
    var t := Trim(pending);
    var keep := (x: string) => x != t;
    assert Add(tags, pending).tags == tags + [t];
    Seqs.FilterAppend(tags, [t], keep);
    RemoveAbsent(tags, t);
  }

  /** Once an input has been accepted, the same text is rejected if typed
      again: the list cannot receive a duplicate. */
  lemma AddSameTextTwice(tags: seq<string>, pending: string)
    requires Accepts(tags, pending)
    ensures Add(Add(tags, pending).tags, pending) == TagInput(Add(tags, pending).tags, pending)
  {
    assert Trim(pending) in Add(tags, pending).tags;
  }
}
