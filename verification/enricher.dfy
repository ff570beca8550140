/**
 * The status enricher: turns the result of looking a container up into the
 * five descriptive fields the notification shows, degrading to a sentinel
 * record instead of failing.
 */
module Enricher {
  import opened Wrappers
  import opened Text

  /**
   * What the lookup reports about a container: the image tags, the
   * lifecycle status, `State.Health.Status`, `Created` and `Platform`
   * (the last three absent when the runtime did not report them).
   */
  datatype ContainerAttrs = ContainerAttrs(
    tags: seq<string>,
    status: string,
    health: Option<string>,
    created: Option<string>,
    platform: Option<string>)

  /**
   * The outcome of `containers.get(id)`: the container, the runtime's
   * "not found" error, or any other failure.
   */
  datatype Lookup = Found(attrs: ContainerAttrs) | NotFound | OtherError

  /** The status dictionary the enricher returns. */
  datatype ContainerStatus = ContainerStatus(
    image: string,
    status: string,
    health: string,
    created: string,
    platform: string)

  /** A status record with the same text in all five fields. */
  function Sentinel(text: string): (s: ContainerStatus)
    ensures s.image == s.status == s.health == s.created == s.platform == text
  {
    ContainerStatus(text, text, text, text, text)
  }

  const UnknownStatus := Sentinel("unknown")
  const ErrorStatus := Sentinel("error")

  /**
   * `created[:19].replace('T', ' ')`: the ISO creation time cut to whole
   * seconds, with the date/time separator turned into a space.
   */
  function CreatedText(created: string): (r: string)
    ensures |r| == if |created| <= 19 then |created| else 19
    ensures 'T' !in r
    ensures forall i :: 0 <= i < |r| ==> r[i] == if created[i] == 'T' then ' ' else created[i]
  {
    Replace(Take(created, 19), 'T', ' ')
  }

  /**
   * `get_container_status`: never fails. A missing `Created` raises a
   * `KeyError` in the lookup's body, which the catch-all turns into the
   * error sentinel like any other failure.
   */
  function Enrich(lookup: Lookup): (s: ContainerStatus)
    ensures lookup.NotFound? ==> s == UnknownStatus
    ensures lookup.OtherError? ==> s == ErrorStatus
    ensures lookup.Found? && lookup.attrs.created.None? ==> s == ErrorStatus
  {
    match lookup
    case NotFound => UnknownStatus
    case OtherError => ErrorStatus
    case Found(a) =>
      match a.created
      case None => ErrorStatus
      case Some(created) =>
        ContainerStatus(
          if |a.tags| > 0 then a.tags[0] else "untagged",
          a.status,
          a.health.GetOr("N/A"),
          CreatedText(created),
          a.platform.GetOr("N/A"))
  }

  /** The two failure sentinels differ, so the two failures stay distinguishable. */
  lemma SentinelsDiffer()
    ensures UnknownStatus != ErrorStatus
    ensures UnknownStatus.image != ErrorStatus.image
  {
  }

  /**
   * A container that was found and reports its creation time gets its first
   * tag (or `untagged`), its status, its health and platform (or `N/A`), and
   * its creation time cut to 19 characters with no `T`.
   */
  lemma EnrichFound(a: ContainerAttrs)
    requires a.created.Some?
    ensures Enrich(Found(a)).image == if a.tags == [] then "untagged" else a.tags[0]
    ensures Enrich(Found(a)).status == a.status
    ensures Enrich(Found(a)).health == if a.health.Some? then a.health.value else "N/A"
    ensures Enrich(Found(a)).platform == if a.platform.Some? then a.platform.value else "N/A"
    ensures Enrich(Found(a)).created == CreatedText(a.created.value)
    ensures |Enrich(Found(a)).created| <= 19 && 'T' !in Enrich(Found(a)).created
  {
  }

  /** An ISO timestamp with fractional seconds becomes `YYYY-MM-DD HH:MM:SS`. */
  lemma CreatedExample()
    ensures CreatedText("2024-01-01T12:00:00.000Z") == "2024-01-01 12:00:00"
  {
    var created := "2024-01-01T12:00:00.000Z";
    var cut := Take(created, 19);
    assert cut == "2024-01-01T12:00:00";
    var r := Replace(cut, 'T', ' ');
    var want := "2024-01-01 12:00:00";
    forall i | 0 <= i < 19
      ensures r[i] == want[i]
    {
      assert cut[i] == 'T' <==> i == 10;
    }
  }
}
