/**
 * Click resolution: from the first object the ray hits, walk up the parent
 * links until an object carries a truthy `userData.id`, and select that id;
 * select nothing when the ray hits nothing or the walk reaches the top.
 */
module Pick {
  import opened Common
  import opened SceneGraph

  /**
   * The ancestor-or-self chain of `h`, from `h` up to the object that hangs
   * directly in the scene (or nowhere). The scene object above it has no id.
   */
  function Chain(g: seq<Node>, h: nat): (c: seq<nat>)
    requires Linked(g) && h < |g|
    ensures |c| >= 1 && c[0] == h
    ensures forall k :: 0 <= k < |c| ==> c[k] < |g|
    ensures forall k :: 0 <= k < |c| - 1 ==> g[c[k]].parent == Under(c[k + 1])
    ensures !g[c[|c| - 1]].parent.Under?
    decreases h
  {
    match g[h].parent
    case Under(p) => [h] + Chain(g, p)
    case _ => [h]
  }

  /** The id of the first node in `c` whose id is truthy. */
  function FirstTruthy(g: seq<Node>, c: seq<nat>): Option<string>
    requires forall k :: 0 <= k < |c| ==> c[k] < |g|
  {
    if c == [] then None
    else if Truthy(IdOf(g[c[0]])) then IdOf(g[c[0]])
    else FirstTruthy(g, c[1..])
  }

  /**
   * The first truthy id: it is present exactly when some node in the chain
   * has a truthy id, and it is the id of a node before which no node has one.
   */
  lemma {:induction false} FirstTruthySpec(g: seq<Node>, c: seq<nat>)
    requires forall k :: 0 <= k < |c| ==> c[k] < |g|
    ensures FirstTruthy(g, c).Some? <==> exists k :: 0 <= k < |c| && Truthy(IdOf(g[c[k]]))
    ensures FirstTruthy(g, c).Some? ==>
      exists k :: (0 <= k < |c| && IdOf(g[c[k]]) == FirstTruthy(g, c) && Truthy(FirstTruthy(g, c))
                   && forall j :: 0 <= j < k ==> !Truthy(IdOf(g[c[j]])))
  {
    if c != [] && !Truthy(IdOf(g[c[0]])) {
      FirstTruthySpec(g, c[1..]);
      var r := FirstTruthy(g, c);
      if exists k :: 0 <= k < |c| && Truthy(IdOf(g[c[k]])) {
        var k :| 0 <= k < |c| && Truthy(IdOf(g[c[k]]));
        assert c[1..][k - 1] == c[k];
      }
      if r.Some? {
        var k :| 0 <= k < |c[1..]| && IdOf(g[c[1..][k]]) == r && Truthy(r)
          && forall j :: 0 <= j < k ==> !Truthy(IdOf(g[c[1..][j]]));
        assert c[k + 1] == c[1..][k];
        forall j | 0 <= j < k + 1
          ensures !Truthy(IdOf(g[c[j]]))
        {
          if j > 0 {
            assert c[j] == c[1..][j - 1];
          }
        }
      }
    }
  }

  /** `handleClick` after the raycast: `hits` are the intersected objects, nearest first. */
  method HandleClick(g: seq<Node>, hits: seq<nat>) returns (selected: Option<string>)
    requires Linked(g)
    requires forall k :: 0 <= k < |hits| ==> hits[k] < |g|
    ensures hits == [] ==> selected == None
    ensures hits != [] ==> selected == FirstTruthy(g, Chain(g, hits[0]))
  {
    if |hits| == 0 {
      return None;
    }
    var current: nat := hits[0];
    while g[current].parent.Under? && !Truthy(IdOf(g[current]))
      invariant current < |g|
      invariant FirstTruthy(g, Chain(g, current)) == FirstTruthy(g, Chain(g, hits[0]))
      decreases current
    {
      var c := Chain(g, current);
      assert c[1..] == Chain(g, g[current].parent.handle);
      current := g[current].parent.handle;
    }
    // From a top-level object the source takes one more step, to the scene
    // object, whose `userData` has no id: the outcome is null either way.
    var id := IdOf(g[current]);
    selected := if Truthy(id) then id else None;
  }

  /** An object whose own id is truthy selects itself. */
  lemma SelfSelects(g: seq<Node>, h: nat)
    requires Linked(g) && h < |g| && Truthy(IdOf(g[h]))
    ensures FirstTruthy(g, Chain(g, h)) == IdOf(g[h])
  {
  }

  /** An object without a truthy id selects what its parent selects. */
  lemma ParentSelects(g: seq<Node>, h: nat)
    requires Linked(g) && h < |g| && g[h].parent.Under? && !Truthy(IdOf(g[h]))
    ensures FirstTruthy(g, Chain(g, h)) == FirstTruthy(g, Chain(g, g[h].parent.handle))
  {
    var c := Chain(g, h);
    assert c[1..] == Chain(g, g[h].parent.handle);
  }

  /** A top-level (or detached) object without a truthy id selects nothing. */
  lemma RootSelectsNothing(g: seq<Node>, h: nat)
    requires Linked(g) && h < |g| && !g[h].parent.Under? && !Truthy(IdOf(g[h]))
    ensures FirstTruthy(g, Chain(g, h)) == None
  {
    assert Chain(g, h)[1..] == [];
  }
}
