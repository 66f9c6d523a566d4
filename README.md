# Generic stack and container helpers

A Dafny model of the generics page of a Swift playground: a last-in-first-out
stack of items (the `Int`-only `IntStack`, the generic `Stack<Element>`
and the `Container`-conforming `IntStack2`), the helpers written for any
`Container` (`allItemsMatch`, `startsWith` and a subscript that takes a
sequence of indices), the linear search `findInex`, and the two swap
functions `swapTwoInts` and `swapTwoValues`.

Files:

- `wrappers.dfy`, module `Wrappers`: `Option<T>`, Swift's `T?`.
- `swap.dfy`, module `Swapping`: the two swap functions.
- `containers.dfy`, module `Containers`: `findInex` and the `Container` helpers.
- `stacks.dfy`, module `Stacks`: the three stacks, `topItem`, `suffix` and `isTop`.

Modelling choices:

- Each stack is a class whose `items` field is the Swift `items` array, as a
  `seq`; `push`, `pop` and `append` are methods that reassign it.
- A Swift `Container` offers only `count` and `subscript(i)`, so the
  helpers that take a container take the sequence of its items: `count`
  is the length and `self[i]` is the `i`-th element. For a `Stack` that
  sequence is `items`, with `Count() == |items|` and `At(i) == items[i]`.
- Swift's `Equatable` constraint is the type characteristic `T(==)`. The
  constrained extension `isTop` becomes a module-level function on a
  `Stack<T(==)>`, because the class itself is generic over any `T`.
- `inout` parameters are copied in and written back on return, so each swap
  function takes the old pair and returns the new pair.
- Swift traps on `removeLast` of an empty array, on a subscript out of range
  and on a reversed range; `Pop`, `At`, `Suffix` and `ItemsAt` require
  what keeps them clear of those traps.

## Model

| member | source | states |
|---|---|---|
| Swapping.SwapTwoInts | MyPlayground.playground/Pages/Generics.xcplaygroundpage/Contents.swift:8-13 | the new `a` is the old `b` and the new `b` is the old `a` |
| Swapping.SwapTwoValues | MyPlayground.playground/Pages/Generics.xcplaygroundpage/Contents.swift:25-30 | the same exchange for values of any type |
| Swapping.SwapTwiceRestores | MyPlayground.playground/Pages/Generics.xcplaygroundpage/Contents.swift:15-36 | swapping twice (first with swapTwoInts, then swapTwoValues) gives back the original pair |
| Stacks.IntStack.constructor | MyPlayground.playground/Pages/Generics.xcplaygroundpage/Contents.swift:44-45 | a new stack has no items |
| Stacks.IntStack.Push | MyPlayground.playground/Pages/Generics.xcplaygroundpage/Contents.swift:47-49 | the items become the old items with `item` added at the end |
| Stacks.IntStack.Pop | MyPlayground.playground/Pages/Generics.xcplaygroundpage/Contents.swift:51-53 | needs a non-empty stack; returns the last item and leaves the old items without it |
| Stacks.Stack.constructor | MyPlayground.playground/Pages/Generics.xcplaygroundpage/Contents.swift:56-59 | a new stack has no items |
| Stacks.Stack.Push | MyPlayground.playground/Pages/Generics.xcplaygroundpage/Contents.swift:60-62 | items are the old items plus `item` at the end; count rises by one; earlier items are unchanged; the top is now `item` |
| Stacks.Stack.Pop | MyPlayground.playground/Pages/Generics.xcplaygroundpage/Contents.swift:63-65 | needs a non-empty stack; returns the old top item; leaves the old items without their last; count drops by one |
| Stacks.Stack.Append | MyPlayground.playground/Pages/Generics.xcplaygroundpage/Contents.swift:67-69 | the same new state as `push` |
| Stacks.Stack.Count | MyPlayground.playground/Pages/Generics.xcplaygroundpage/Contents.swift:70-72 | the number of items |
| Stacks.Stack.At | MyPlayground.playground/Pages/Generics.xcplaygroundpage/Contents.swift:73-75 | the item at index `i`, defined only for `0 <= i < count` |
| Stacks.Stack.TopItem | MyPlayground.playground/Pages/Generics.xcplaygroundpage/Contents.swift:85-88 | absent exactly when the stack is empty; otherwise the last item, so that the items are everything below it followed by it |
| Stacks.Stack.Suffix | MyPlayground.playground/Pages/Generics.xcplaygroundpage/Contents.swift:151-158 | needs `0 <= size <= count`; returns a new stack of exactly `size` items equal to the last `size` items in order; the receiver's items are unchanged and are its first `count - size` items followed by the result's |
| Stacks.PushPopRestores | MyPlayground.playground/Pages/Generics.xcplaygroundpage/Contents.swift:60-65 | `push(x)` then `pop()` returns `x` and restores the items |
| Stacks.IsTop | MyPlayground.playground/Pages/Generics.xcplaygroundpage/Contents.swift:203-209 | true exactly when the stack is non-empty and its last item equals `item`, i.e. exactly when `topItem` is that item |
| Stacks.IsTopStartsWithSingle | MyPlayground.playground/Pages/Generics.xcplaygroundpage/Contents.swift:203-217 | on a one-item stack, `isTop(x)` and `startsWith(x)` agree |
| Stacks.IntStack2.constructor | MyPlayground.playground/Pages/Generics.xcplaygroundpage/Contents.swift:115-117 | a new stack has no items |
| Stacks.IntStack2.Push | MyPlayground.playground/Pages/Generics.xcplaygroundpage/Contents.swift:118-120 | the items become the old items with `item` added at the end |
| Stacks.IntStack2.Pop | MyPlayground.playground/Pages/Generics.xcplaygroundpage/Contents.swift:121-123 | needs a non-empty stack; returns the last item and leaves the old items without it |
| Stacks.IntStack2.Append | MyPlayground.playground/Pages/Generics.xcplaygroundpage/Contents.swift:126-128 | the same new state as `push` |
| Stacks.IntStack2.Count | MyPlayground.playground/Pages/Generics.xcplaygroundpage/Contents.swift:129-131 | the number of items |
| Stacks.IntStack2.At | MyPlayground.playground/Pages/Generics.xcplaygroundpage/Contents.swift:132-134 | the item at index `i`, defined only for `0 <= i < count` |
| Containers.FirstIndex | MyPlayground.playground/Pages/Generics.xcplaygroundpage/Contents.swift:96-103 | reference definition of the search result: a found index holds the value and no earlier index does; absent exactly when the value does not occur |
| Containers.FindIndex | MyPlayground.playground/Pages/Generics.xcplaygroundpage/Contents.swift:96-103 | the loop returns the least index holding the value, absent exactly when the value does not occur, and equal to `FirstIndex` |
| Containers.FirstIndexIsUnique | MyPlayground.playground/Pages/Generics.xcplaygroundpage/Contents.swift:96-103 | an index holding the value with no earlier occurrence is the one `FirstIndex` returns |
| Containers.AllItemsMatch | MyPlayground.playground/Pages/Generics.xcplaygroundpage/Contents.swift:163-181 | true exactly when the counts are equal and the items agree at every index, which is exactly equality of the item sequences |
| Containers.ItemsMatchIsEquality | MyPlayground.playground/Pages/Generics.xcplaygroundpage/Contents.swift:163-181 | the pairwise comparison holds exactly when the two item sequences are equal |
| Containers.ItemsMatchReflexive | MyPlayground.playground/Pages/Generics.xcplaygroundpage/Contents.swift:163-181 | every container matches itself |
| Containers.ItemsMatchSymmetric | MyPlayground.playground/Pages/Generics.xcplaygroundpage/Contents.swift:163-181 | swapping the two arguments does not change the answer |
| Containers.ItemsMatchTransitive | MyPlayground.playground/Pages/Generics.xcplaygroundpage/Contents.swift:163-181 | two containers matching a third match each other |
| Containers.StartsWith | MyPlayground.playground/Pages/Generics.xcplaygroundpage/Contents.swift:214-217 | true only if the item occurs, and exactly when the first search for it stops at index 0 (count at least one and `self[0]` equal to it) |
| Containers.StartsWithAppend | MyPlayground.playground/Pages/Generics.xcplaygroundpage/Contents.swift:214-217 | appending items keeps what the container starts with |
| Containers.ItemsAt | MyPlayground.playground/Pages/Generics.xcplaygroundpage/Contents.swift:220-229 | needs every index in range; returns a list as long as the index sequence whose `k`-th item is the item at `indices[k]` |

## Left out

- The `print` calls in the swap functions and the top-level statements that drive the page (building `stackOfInts`, `stackOfStrings`, `other`, the `findInex` calls and the `if` statements): console output and demonstration, not logic.
- The protocols `Container`, `Container2` and `SuffixableContainer`, their associated types and `where` clauses: type-system features; only the operations they require are modelled, over a generic `T` or `T(==)`.
- The call of `findInex` on `Double` values: floating point is not modelled; the function itself is generic.
- Swift structs are value types: assigning a stack copies it. The model's stacks are objects, so aliasing two variables to one stack is possible here and not in Swift; `Suffix` returns a fresh object, which matches the copy Swift returns.
- Swift `Int` is 64 bits wide; counts and indices are unbounded here, since no operation on this page comes near the bound.
