/** Page navigation of the queue embed (src/classes/QueueEmbedHandler.ts). */
module QueueEmbed {
  import opened Common
  import opened Interfaces
  import opened Player
  import Embeds

  /** The highest page index prev wraps to: `Math.ceil(len / 10) - 1`, or 0 for an empty queue. */
  function LastPage(len: nat): (r: nat)
    ensures r * 10 < len || (r == 0 && len == 0)
    ensures (r + 1) * 10 >= len
  {
    var max := CeilDiv(len, 10) - 1;
    if max == -1 then 0 else max
  }

  /** The `prev` button. */
  function PrevPage(page: int, len: nat): (r: int)
    ensures page > 0 ==> r == page - 1
    ensures page <= 0 ==> r == LastPage(len)
  {
    if page > 0 then page - 1 else LastPage(len)
  }

  /** The `next` button: it compares with `Math.ceil(len / 10) - 1`, which for an empty queue is
      -1, not LastPage's 0. */
  function NextPage(page: int, len: nat): (r: int)
    ensures page < CeilDiv(len, 10) - 1 ==> r == page + 1
    ensures page >= CeilDiv(len, 10) - 1 ==> r == 0
  {
    if page < CeilDiv(len, 10) - 1 then page + 1 else 0
  }

  predicate InRange(page: int, len: nat)
  {
    0 <= page <= LastPage(len)
  }

  /** Both buttons keep a page that is in range in range. */
  lemma NavigationStaysInRange(page: int, len: nat)
    requires InRange(page, len)
    ensures InRange(PrevPage(page, len), len)
    ensures InRange(NextPage(page, len), len)
  {
  }

  /** next, from any page at or after the first, lands in range (the queue may have shrunk
      since the page was shown). */
  lemma NextFromAnyPage(page: int, len: nat)
    requires page >= 0
    ensures InRange(NextPage(page, len), len)
  {
  }

  /** On a page in range, next undoes prev and prev undoes next. */
  lemma PrevNextInverse(page: int, len: nat)
    requires InRange(page, len)
    ensures NextPage(PrevPage(page, len), len) == page
    ensures PrevPage(NextPage(page, len), len) == page
  {
    var last := LastPage(len);
    if len == 0 {
      assert CeilDiv(len, 10) == 0;
    } else {
      assert CeilDiv(len, 10) - 1 == last;
    }
  }

  /** The page buttons are shown exactly when the queue needs more than one page. */
  function ShowButtons(len: nat): (r: bool)
    ensures r <==> CeilDiv(len, 10) > 1
    ensures r <==> LastPage(len) > 0
  {
    len > 10
  }

  /** A QueueEmbedHandler: the session it shows and the page it is on. */
  class QueueEmbedHandler {
    const manager: PlayerManager
    var page: int

    constructor (manager: PlayerManager, page: int)
      ensures this.manager == manager && this.page == page
    {
      this.manager := manager;
      this.page := page;
    }

    /** The embed and whether it carries the page buttons; `current!` in the source makes a
        current track the caller's duty. */
    method CreateEmbed() returns (e: Embeds.Embed, buttons: bool)
      requires manager.current.Some?
      ensures buttons == ShowButtons(|manager.queue|)
      ensures e.footer == Some(Embeds.QueueFooter(page + 1, Embeds.PageCount(|manager.queue|)))
      ensures e.description == Embeds.QueueHeader(manager.current.value)
        + Join(Embeds.QueueLines(Embeds.QueuePage(manager.queue, page)))
    {
      e := Embeds.CreateQueueEmbed(manager.current.value, manager.queue, Some(page));
      buttons := |manager.queue| > 10;
    }

    method Prev()
      modifies this
      ensures page == PrevPage(old(page), |manager.queue|)
    {
      if page > 0 {
        page := page - 1;
      } else {
        var max := CeilDiv(|manager.queue|, 10) - 1;
        if max == -1 {
          max := 0;
        }
        page := max;
      }
    }

    method Next()
      modifies this
      ensures page == NextPage(old(page), |manager.queue|)
    {
      if page < CeilDiv(|manager.queue|, 10) - 1 {
        page := page + 1;
      } else {
        page := 0;
      }
    }
  }
}
