/**
  The connection graph panel (client/src/components/BookConnections.js): the
  colour of a node, and the list of connections shown for the selected node.

  A link endpoint is the node id as the server sent it, or the node object the
  graph library puts in its place once the layout has run.
 */
module BookConnectionsView {
  import opened JsValues
  import opened Seqs

  datatype Endpoint = Named(name: string) | Node(id: string)

  /** `typeof e === 'string' ? e : e.id`. */
  function EndpointId(e: Endpoint): string {
    match e
    case Named(name) => name
    case Node(id) => id
  }

  datatype Link = Link(source: Endpoint, target: Endpoint, reason: Json)

  /** `e === selected.id || e.id === selected.id`. */
  predicate Matches(e: Endpoint, selected: string) {
    match e
    case Named(name) => name == selected
    case Node(id) => id == selected
  }

  lemma MatchesById(e: Endpoint, selected: string)
    ensures Matches(e, selected) <==> EndpointId(e) == selected
  {
  }

  /** The filter over `connections.links`. */
  function Incident(selected: string): Link -> bool {
    (link: Link) => Matches(link.source, selected) || Matches(link.target, selected)
  }

  /** `otherBook`: the target when the source is the selected node, otherwise the source. */
  function OtherEnd(link: Link, selected: string): string {
    if Matches(link.source, selected) then EndpointId(link.target) else EndpointId(link.source)
  }

  /** One `<li>` of the list: the other book and the link's reason. */
  datatype Item = Item(otherBook: string, reason: Json)

  function ConnectionItems(links: seq<Link>, selected: string): seq<Item> {
    var shown := Filter(links, Incident(selected));
    seq(|shown|, i requires 0 <= i < |shown| => Item(OtherEnd(shown[i], selected), shown[i].reason))
  }

  /** A link is listed exactly when one of its endpoints is the selected node. */
  lemma ListedIffIncident(links: seq<Link>, selected: string, link: Link)
    ensures link in Filter(links, Incident(selected))
        <==> link in links && (EndpointId(link.source) == selected || EndpointId(link.target) == selected)
  {
    FilterMembers(links, Incident(selected));
    MatchesById(link.source, selected);
    MatchesById(link.target, selected);
  }

  /** The list keeps the order of `connections.links`. */
  lemma ItemsKeepOrder(a: seq<Link>, b: seq<Link>, selected: string)
    ensures ConnectionItems(a + b, selected) == ConnectionItems(a, selected) + ConnectionItems(b, selected)
  {
    FilterConcat(a, b, Incident(selected));
    var fa, fb := Filter(a, Incident(selected)), Filter(b, Incident(selected));
    var whole, parts := ConnectionItems(a + b, selected), ConnectionItems(a, selected) + ConnectionItems(b, selected);
    assert |whole| == |parts|;
    forall i | 0 <= i < |whole| ensures whole[i] == parts[i] {
      assert (fa + fb)[i] == if i < |fa| then fa[i] else fb[i - |fa|];
    }
  }

  /**
    For a listed link the shown book is an endpoint of it, and it is the
    selected node itself exactly when both endpoints are (a self-loop).
   */
  lemma OtherEndIsTheOtherBook(link: Link, selected: string)
    requires Incident(selected)(link)
    ensures OtherEnd(link, selected) == EndpointId(link.source) || OtherEnd(link, selected) == EndpointId(link.target)
    ensures OtherEnd(link, selected) == selected
        <==> EndpointId(link.source) == selected && EndpointId(link.target) == selected
  {
    MatchesById(link.source, selected);
    MatchesById(link.target, selected);
  }

  /** The six-entry `colors` table. */
  const Palette: map<string, string> := map[
    "fiction" := "#0088FE",
    "non-fiction" := "#00C49F",
    "fantasy" := "#FFBB28",
    "mystery" := "#FF8042",
    "romance" := "#8884D8",
    "sci-fi" := "#82CA9D"]

  const DefaultColor := "#999"

  /** `colors[node.group?.toLowerCase()] || '#999'`; None is a missing group. */
  function NodeColor(group: Option<string>): (c: string)
    ensures group.Some? && Lower(group.value) in Palette ==> c == Palette[Lower(group.value)]
    ensures group.None? || Lower(group.value) !in Palette ==> c == DefaultColor
  {
    if group.Some? && Lower(group.value) in Palette then Palette[Lower(group.value)] else DefaultColor
  }

  /** The colour ignores the case of the group name. */
  lemma NodeColorIgnoresCase(group: string)
    ensures NodeColor(Some(Lower(group))) == NodeColor(Some(group))
  {
    LowerIdempotent(group);
  }
}
