// Vocabulary shared by every module of the story-viewer model.
module Common {

  datatype Option<+T> = None | Some(value: T)

  /** Story ids as they appear in `data-id` and `data-story-id` attributes. */
  type StoryId = string

  /** Direction of an item or story step: `'previous'` or anything else (`'next'`, `false`). */
  datatype Dir = Backward | Forward

  /** The three role classes a `.story-viewer` panel can carry. */
  datatype Role = Previous | Viewing | Next

  /** The role of the neighbour panel in direction `d`. */
  function RoleOf(d: Dir): Role
  {
    if d == Forward then Next else Previous
  }

  /** The role that becomes useless when the slider moves towards `r`. */
  function Opposite(r: Role): Role
  {
    match r
    case Previous => Next
    case Next => Previous
    case Viewing => Viewing
  }

  /** No element occurs twice. */
  predicate Distinct<T(==)>(s: seq<T>)
  {
    forall i, j :: 0 <= i < j < |s| ==> s[i] != s[j]
  }

  /** `Math.abs` on integers. */
  function Abs(x: int): (r: nat)
    ensures r == x || r == -x
  {
    if x < 0 then -x else x
  }
}
