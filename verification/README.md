# A stack-shaped singly linked list, in Dafny

This project models `src/mut_single_linked_list.rs`: a generic singly linked
list `LinkedList<T>` that owns a chain of boxed nodes through its `head` link.
It has stack operations (`peek`, `append` pushes onto the front, `pop_front`)
and three iterators: a borrowing one (`iter`), an unfinished mutable one
(`iter_mut`) and a consuming one (`into_iter`).

Layout:

- `options.dfy`, module `Options`: Rust's `Option<T>`.
- `linked_list.dfy`, module `MutSingleLinkedList`:
  - `Node<T>` is a datatype `{data, next}`. `Link<T>` is `Option<Node<T>>`.
    A box is owned by exactly one link and is never shared, so a chain of boxes is a datatype value.
  - `LinkedListBadLayout` is the `Nil | Cons(i32, …)` declaration, with `i32` as the `int32` newtype.
  - `Elements(l)` is the sequence of data a link reaches, head first. Every contract is stated against it.
  - `PushLink` and `PopLink` are pure functions. They give what `append` and `pop_front` do to a head link.
  - `LinkedList` is a class whose one field `head` the methods rewrite in place.
    `Contents()` is `Elements(head)`.
  - `LinkedListIter`, `LinkedListIterMut` and `LinkedListIntoIter` are classes.
    Their `Next` methods update the cursor field (`nextItem`) or the owned list (`inner`).
  - `CollectIter` and `CollectIntoIter` model a `for` loop that drives an iterator until its first `None`.
    They state what the whole iteration yields.

The source has no constructor for `LinkedList` and its `head` field is private.
The empty-list constructor `LinkedList.constructor` is an addition of this model.

## Model

| member | source | states |
|---|---|---|
| MutSingleLinkedList.PushLink | src/mut_single_linked_list.rs:66-77 | the link installed by `append` reaches `value` followed by exactly the data of the old head |
| MutSingleLinkedList.PopLink | src/mut_single_linked_list.rs:79-100 | popping an empty link gives `None` and an empty head; otherwise it gives `Some` of the first element, and the new head reaches exactly the rest |
| MutSingleLinkedList.PushPopRoundTrip | src/mut_single_linked_list.rs:66-100 | `append(v)` then `pop_front()` returns `Some(v)` and restores the original head link |
| MutSingleLinkedList.PushAllPopNIsLifo | src/mut_single_linked_list.rs:66-100 | appending v1..vn and then popping n times yields `Some(vn)..Some(v1)` and leaves the original list (LIFO) |
| MutSingleLinkedList.PopAllYieldsElements | src/mut_single_linked_list.rs:237-251 | popping as many times as there are elements yields every element head first and empties the list, and the next pop yields `None` |
| MutSingleLinkedList.LinkedList.constructor | src/mut_single_linked_list.rs:18-22 | (addition) a new list has no head node and no elements |
| MutSingleLinkedList.LinkedList.Peek | src/mut_single_linked_list.rs:50-62 | `None` exactly when the list is empty, otherwise the head's data; being a function, it changes nothing |
| MutSingleLinkedList.LinkedList.Append | src/mut_single_linked_list.rs:66-77 | the new head is a node holding `value` whose `next` is the old head, unchanged; the contents go from `s` to `[value] + s` |
| MutSingleLinkedList.LinkedList.PopFront | src/mut_single_linked_list.rs:79-100 | on an empty list returns `None` and the list stays empty; otherwise returns `Some(s[0])` and the contents become `s[1..]`; the result and the new head are `PopLink` of the old head |
| MutSingleLinkedList.LinkedList.Iter | src/mut_single_linked_list.rs:112-116 | a fresh iterator whose cursor is the list's head, with nothing yielded yet |
| MutSingleLinkedList.LinkedList.IterMut | src/mut_single_linked_list.rs:126-133 | a fresh mutable iterator whose cursor holds the head node when there is one |
| MutSingleLinkedList.LinkedList.IntoIter | src/mut_single_linked_list.rs:242-251 | a fresh consuming iterator that owns this list |
| MutSingleLinkedList.LinkedListIter.constructor | src/mut_single_linked_list.rs:137-142 | the cursor starts at the given link; what has been yielded plus what remains is the list |
| MutSingleLinkedList.LinkedListIter.Next | src/mut_single_linked_list.rs:144-163 | at the end it returns `None` and the cursor stays put; otherwise it returns the data under the cursor and moves one node on, so each element is yielded once, in order; the list is not modified |
| MutSingleLinkedList.LinkedListIterMut.constructor | src/mut_single_linked_list.rs:192-196 | the cursor is the given optional node |
| MutSingleLinkedList.LinkedListIterMut.Next | src/mut_single_linked_list.rs:198-224 | always returns `None` and leaves the cursor `None`; only the iterator changes, never the list |
| MutSingleLinkedList.LinkedListIntoIter.constructor | src/mut_single_linked_list.rs:229-232 | the iterator owns the given list |
| MutSingleLinkedList.LinkedListIntoIter.Next | src/mut_single_linked_list.rs:234-240 | returns exactly what `pop_front` on the owned list returns, and the owned list changes exactly as `pop_front` changes it |
| MutSingleLinkedList.CollectIter | src/mut_single_linked_list.rs:144-163 | driving `iter` until its first `None` yields exactly the list's contents, head to tail, and leaves the list as it was |
| MutSingleLinkedList.CollectIntoIter | src/mut_single_linked_list.rs:234-251 | driving `into_iter` until its first `None` yields exactly the list's contents, head to tail, after as many `Some` results as there are elements, and leaves the consumed list empty |

## Left out

- `src/ch.rs` is not part of this model. It holds the two blocking channels built on `Mutex`, `Condvar` and `Arc`; their behaviour is about threads, blocking and wake-ups.
- `src/proptest.rs` is not part of this model: it is test scaffolding with no behaviour of its own.
- Box allocation and deallocation, and the implicit recursive drop of a long chain, are not modelled: a chain is a value.
- `mem::replace(&mut self.head, None)` is modelled as a plain assignment of `None` to `head` before `head` is rewritten.
- Lifetimes and borrows are not modelled. `peek` and `LinkedListIter::next` return the data itself rather than a `&T`.
  The borrowing iterator keeps a copy of the link it points at. This is sound because the borrowed list cannot change while the iterator lives.
- `into_iter` moves the list into the iterator. Dafny does not forbid the caller from using the list object afterwards, while Rust does.
- `LinkedListBadLayout` has no operations in the source, so it is only declared.
- The commented-out code (`LinkInvented`, the first `LinkedListIterMut` draft and the first `iter_mut` signature) is not live and is not modelled.
