/** A stack-shaped singly linked list (src/mut_single_linked_list.rs).

    The list owns a chain of boxed nodes through its `head` link. A box is
    owned by exactly one link and never shared, so a chain is modelled as a
    datatype value; the list object and the three iterators, whose fields the
    source rewrites in place, are classes. Every operation is stated against
    `Elements`, the sequence of data a link reaches, read from head to tail. */
module MutSingleLinkedList {

  import opened Options

  /** The recursive "functional" list declaration the source keeps beside the
      real one; it carries 32-bit signed integers and has no operations. */
  newtype int32 = x: int | -0x8000_0000 <= x < 0x8000_0000

  datatype LinkedListBadLayout = Nil | Cons(int32, LinkedListBadLayout)

  /** A link is either the end of the list or the (boxed) next node. */
  type Link<T> = Option<Node<T>>

  datatype Node<T> = Node(data: T, next: Link<T>)

  /** The data reachable from a link, head first. */
  function Elements<T>(l: Link<T>): seq<T>
  {
    match l
    case None => []
    case Some(n) => [n.data] + Elements(n.next)
  }

  /** The link `append` installs: a new node holding `value` whose `next` is
      the old head, left exactly as it was. */
  function PushLink<T>(l: Link<T>, value: T): (r: Link<T>)
    ensures Elements(r) == [value] + Elements(l)
  {
    Some(Node(value, l))
  }

  /** What `pop_front` does to a head link: the popped data (or `None` on an
      empty list) and the link that becomes the new head. */
  function PopLink<T>(l: Link<T>): (r: (Option<T>, Link<T>))
    ensures Elements(l) == [] ==> r == (None, None)
    ensures Elements(l) != [] ==>
              r.0 == Some(Elements(l)[0]) && Elements(r.1) == Elements(l)[1..]
  {
    match l
    case None => (None, None)
    case Some(n) => (Some(n.data), n.next)
  }

  /** Pushing `value` and popping straight away gives back `value` and the
      original link. */
  lemma PushPopRoundTrip<T>(l: Link<T>, value: T)
    ensures PopLink(PushLink(l, value)) == (Some(value), l)
  {
  }

  /** The link after `append(vs[0])`, `append(vs[1])`, ... in that order. */
  function PushAll<T>(l: Link<T>, vs: seq<T>): Link<T>
    decreases |vs|
  {
    if vs == [] then l else PushLink(PushAll(l, vs[..|vs| - 1]), vs[|vs| - 1])
  }

  /** The results of `n` successive `pop_front` calls, and the head left. */
  function PopN<T>(l: Link<T>, n: nat): (seq<Option<T>>, Link<T>)
  {
    if n == 0 then ([], l)
    else
      var (x, rest) := PopLink(l);
      var (xs, last) := PopN(rest, n - 1);
      ([x] + xs, last)
  }

  /** `Some(x)` for every `x` of `s`, in order. */
  function Somes<T>(s: seq<T>): seq<Option<T>>
  {
    if s == [] then [] else [Some(s[0])] + Somes(s[1..])
  }

  function Reverse<T>(s: seq<T>): seq<T>
  {
    if s == [] then [] else Reverse(s[1..]) + [s[0]]
  }

  lemma {:induction false} ReverseSnoc<T>(s: seq<T>, x: T)
    ensures Reverse(s + [x]) == [x] + Reverse(s)
  {
    if s != [] {
      assert (s + [x])[1..] == s[1..] + [x];
      ReverseSnoc(s[1..], x);
    }
  }

  lemma {:induction false} SomesConcat<T>(a: seq<T>, b: seq<T>)
    ensures Somes(a + b) == Somes(a) + Somes(b)
  {
    if a == [] {
      assert a + b == b;
    } else {
      assert (a + b)[0] == a[0] && (a + b)[1..] == a[1..] + b;
      SomesConcat(a[1..], b);
    }
  }

  /** LIFO: after appending v1, ..., vn, popping n times yields vn, ..., v1,
      each wrapped in `Some`, and leaves exactly the list there was before. */
  lemma {:induction false} PushAllPopNIsLifo<T>(l: Link<T>, vs: seq<T>)
    ensures PopN(PushAll(l, vs), |vs|) == (Somes(Reverse(vs)), l)
  {
    if vs != [] {
      var init, last := vs[..|vs| - 1], vs[|vs| - 1];
      assert vs == init + [last];
      PushAllPopNIsLifo(l, init);
      ReverseSnoc(init, last);
      SomesConcat([last], Reverse(init));
    }
  }

  /** Popping as many times as there are elements yields every element, head
      first, and empties the list; the pop after that yields `None`. This is
      what consuming `into_iter` produces. */
  lemma {:induction false} PopAllYieldsElements<T>(l: Link<T>)
    ensures PopN(l, |Elements(l)|) == (Somes(Elements(l)), None)
    ensures PopLink(PopN(l, |Elements(l)|).1).0 == None
  {
    match l
    case None =>
    case Some(n) =>
      PopAllYieldsElements(n.next);
  }

  /** The list itself: a handle on the chain through its head link. */
  class LinkedList<T> {
    var head: Link<T>

    /** The list's data, head first. */
    function Contents(): seq<T>
      reads this
    {
      Elements(head)
    }

    /** The empty list (an addition: the source leaves construction to
        code that can see the private `head` field). */
    constructor ()
      ensures head == None && Contents() == []
    {
      head := None;
    }

    /** The head element, if any; reading it changes nothing. */
    function Peek(): (r: Option<T>)
      reads this
      ensures r.None? <==> Contents() == []
      ensures r.Some? ==> r.value == Contents()[0]
    {
      match head
      case None => None
      case Some(n) => Some(n.data)
    }

    /** Pushes `value` onto the front: it becomes the head and the old chain
        becomes its tail, untouched. */
    method Append(value: T)
      modifies this
      ensures head == PushLink(old(head), value)
      ensures Contents() == [value] + old(Contents())
    {
      var oldHead := head;
      head := None;
      var newNode := Node(value, oldHead);
      head := Some(newNode);
    }

    /** Detaches the head node and returns its data; on an empty list returns
        `None` and the list stays empty. */
    method PopFront() returns (r: Option<T>)
      modifies this
      ensures (r, head) == PopLink(old(head))
      ensures old(Contents()) == [] ==> r == None && Contents() == []
      ensures old(Contents()) != [] ==>
                r == Some(old(Contents())[0]) && Contents() == old(Contents())[1..]
    {
      var taken := head;
      head := None;
      match taken
      case None =>
        r := None;
      case Some(n) =>
        head := n.next;
        r := Some(n.data);
    }

    /** A borrowing iterator whose cursor starts at the head. */
    method Iter() returns (it: LinkedListIter<T>)
      ensures fresh(it) && it.Valid()
      ensures it.nextItem == head && it.origin == Contents() && it.yielded == []
    {
      it := new LinkedListIter(head);
    }

    /** The unfinished mutable iterator: its cursor holds the head node, if
        there is one. */
    method IterMut() returns (it: LinkedListIterMut<T>)
      ensures fresh(it) && it.nextItem == head
    {
      it := new LinkedListIterMut(head);
    }

    /** The consuming iterator: it takes the list over and pops from it. */
    method IntoIter() returns (it: LinkedListIntoIter<T>)
      ensures fresh(it) && it.inner == this
    {
      it := new LinkedListIntoIter(this);
    }
  }

  /** Iterator over the data of a list it borrows. The list cannot change
      while it is borrowed, so the cursor holds the link value it points at.
      `origin` (the list's data when the iterator was made) and `yielded`
      (what `Next` has returned so far) are bookkeeping for the proofs. */
  class LinkedListIter<T> {
    var nextItem: Link<T>
    ghost const origin: seq<T>
    ghost var yielded: seq<T>

    /** Everything yielded so far, followed by what is left, is the list. */
    ghost predicate Valid()
      reads this
    {
      yielded + Elements(nextItem) == origin
    }

    /** The data the cursor has yet to reach. */
    function Remaining(): seq<T>
      reads this
    {
      Elements(nextItem)
    }

    constructor (head: Link<T>)
      ensures Valid() && nextItem == head && origin == Elements(head) && yielded == []
    {
      nextItem := head;
      origin := Elements(head);
      yielded := [];
    }

    /** Yields the data under the cursor and moves the cursor one node on,
        exactly as a pop would but without touching the list; at the end of
        the list yields `None` and stays there. */
    method Next() returns (r: Option<T>)
      requires Valid()
      modifies this
      ensures Valid()
      ensures (r, nextItem) == PopLink(old(nextItem))
      ensures old(Remaining()) == [] ==>
                r == None && nextItem == old(nextItem) && yielded == old(yielded)
      ensures old(Remaining()) != [] ==>
                r == Some(old(Remaining())[0]) && Remaining() == old(Remaining())[1..] &&
                yielded == old(yielded) + [r.value]
    {
      match nextItem
      case None =>
        r := None;
      case Some(n) =>
        nextItem := n.next;
        yielded := yielded + [n.data];
        r := Some(n.data);
    }
  }

  /** The mutable iterator as the source leaves it: it never yields anything. */
  class LinkedListIterMut<T> {
    var nextItem: Option<Node<T>>

    constructor (head: Link<T>)
      ensures nextItem == head
    {
      nextItem := head;
    }

    /** Always returns `None`; a cursor that still held a node is taken and
        left empty. Only the iterator changes, never the list. */
    method Next() returns (r: Option<T>)
      modifies this
      ensures r == None
      ensures nextItem == None
    {
      if nextItem.None? {
      } else {
        var taken := nextItem;
        nextItem := None;
      }
      r := None;
    }
  }

  /** Iterator that owns the list it was made from and pops from it. */
  class LinkedListIntoIter<T> {
    const inner: LinkedList<T>

    constructor (inner: LinkedList<T>)
      ensures this.inner == inner
    {
      this.inner := inner;
    }

    /** The next element is whatever `pop_front` on the owned list yields. */
    method Next() returns (r: Option<T>)
      modifies inner
      ensures (r, inner.head) == PopLink(old(inner.head))
      ensures old(inner.Contents()) == [] ==> r == None && inner.Contents() == []
      ensures old(inner.Contents()) != [] ==>
                r == Some(old(inner.Contents())[0]) &&
                inner.Contents() == old(inner.Contents())[1..]
    {
      r := inner.PopFront();
    }
  }

  /** A `for` loop over `list.iter()`: it sees every element once, head first,
      stops at the first `None`, and leaves the list as it was. */
  method CollectIter<T>(list: LinkedList<T>) returns (items: seq<T>)
    ensures items == list.Contents()
  {
    var it := list.Iter();
    items := [];
    while true
      invariant fresh(it) && it.Valid()
      invariant it.origin == list.Contents()
      invariant items == it.yielded
      decreases |it.Remaining()|
    {
      var x := it.Next();
      if x.None? {
        break;
      }
      items := items + [x.value];
    }
  }

  /** A `for` loop over `list.into_iter()`: it sees every element once, head
      first, after exactly as many steps as there were elements, and the list
      it consumed is left empty. */
  method CollectIntoIter<T>(list: LinkedList<T>) returns (items: seq<T>, steps: nat)
    modifies list
    ensures items == old(list.Contents()) && steps == |items|
    ensures list.Contents() == []
  {
    var it := list.IntoIter();
    items, steps := [], 0;
    while true
      invariant it.inner == list
      invariant items + list.Contents() == old(list.Contents())
      invariant steps == |items|
      decreases |list.Contents()|
    {
      var x := it.Next();
      if x.None? {
        break;
      }
      items, steps := items + [x.value], steps + 1;
    }
  }
}
