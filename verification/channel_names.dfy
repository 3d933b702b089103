/** Redis channel names.  The components compare names only for equality, so a name is kept in its
    parsed form; rendering is injective, and a post's name is never a room's. */
module ChannelNames {

  datatype Name = PostChannel(postID: string) | RoomChannel(roomID: string)

  function Render(n: Name): string {
    match n
    case PostChannel(id) => "post:" + id
    case RoomChannel(id) => "room:" + id
  }

  /** Five characters of prefix, then the ID. */
  lemma RenderMeans(id: string)
    ensures Render(PostChannel(id)) == ['p', 'o', 's', 't', ':'] + id && Render(RoomChannel(id)) == ['r', 'o', 'o', 'm', ':'] + id
  {
  }

  lemma RenderIsInjective(m: Name, n: Name)
    requires Render(m) == Render(n)
    ensures m == n
  {
    assert Render(m)[0] == Render(n)[0];
    assert Render(m)[5..] == Render(n)[5..];
    assert m.PostChannel? ==> Render(m)[5..] == m.postID;
    assert m.RoomChannel? ==> Render(m)[5..] == m.roomID;
    assert n.PostChannel? ==> Render(n)[5..] == n.postID;
    assert n.RoomChannel? ==> Render(n)[5..] == n.roomID;
  }
}
