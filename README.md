# Ownership and structs exercises, modelled in Dafny

The repository is a set of introductory Rust exercises. Two of them have
behaviour that can be stated and proved, and those are modelled here:

- **ownership** (`ownership.dfy`, module `Ownership`): `first_word`, which
  scans the bytes of a `String` and returns the index of the first space
  (or the length when there is none); its slice-returning variant; the
  `main` that computes that index and then clears the string, leaving the
  index stale; and the small ownership-passing helpers
  (`gives_ownership`, `takes_and_gives_back`, both `calculate_length`
  versions, `change`).
- **structs** (`structs.dfy`, module `Structs`): the `User` record, its
  constructor `build_user`, and overwriting its `email` field.

A Rust `String` is modelled as the class `Ownership.RustString` holding a
`seq<byte>`, because `clear` and `push_str` change it in place. A shared
borrow `&String` is a parameter the method has no `modifies` clause for, so
Dafny's framing guarantees the callee leaves it unchanged; an exclusive
borrow `&mut String` is a parameter named in `modifies`. A `&str` is a plain
`seq<byte>`. `FirstWordIndex` is the specification function of the scan;
the loop methods are proved equal to it, and it is proved to return the
index of the first space.

The `User` record is a datatype. Its `sign_in_count` is a `nat` below 2^64
(`Structs.U64`). The field assignment `user1.email = ...` changes a local
value, so it is modelled as the record update `Structs.SetEmail`. In
`structs.dfy` the `String` fields and arguments are Dafny `string`s rather
than byte sequences: `build_user` and the email write only move strings into
fields and compare them, and nothing there measures or scans their bytes, so
the choice of element type changes nothing that is stated.

The slice-returning `first_word` appears twice in the source, over
`&String` (learn_rust_book/projects/ownership/src/main.rs lines 217-227)
and over `&str` (lines 244-254), with the same body. `Ownership.FirstWordSlice`
models the `&str` one; a `&String` reaches it through its bytes.

## Model

| member | source | states |
|---|---|---|
| `Ownership.FirstWordIndex` | learn_rust_book/projects/ownership/src/main.rs:188-198 | the result is at most the length; the byte at the result is a space when the result is below the length; no byte before the result is a space |
| `Ownership.FirstWordIndexUnique` | learn_rust_book/projects/ownership/src/main.rs:191-197 | any index with those three properties is `FirstWordIndex`: the scan returns at the earliest space and at the length only when there is none |
| `Ownership.FirstWordIndexIsLengthIffNoSpace` | learn_rust_book/projects/ownership/src/main.rs:197 | the result equals the length exactly when the string holds no space (so the empty string gives 0) |
| `Ownership.FirstWordIndexOfWordThenSpace` | learn_rust_book/projects/ownership/src/main.rs:191-195 | for a space-free word followed by a space and any rest, the result is the word's length |
| `Ownership.HelloWorldFirstWord` | learn_rust_book/projects/ownership/src/main.rs:202-204 | the index for "hello world" is 5 |
| `Ownership.FirstWord` | learn_rust_book/projects/ownership/src/main.rs:188-198 | the byte loop with early return computes `FirstWordIndex` of the borrowed string's bytes, and modifies nothing |
| `Ownership.FirstWordSlice` | learn_rust_book/projects/ownership/src/main.rs:244-254 | the returned slice is the prefix up to `FirstWordIndex`; it holds no space; the byte after it is a space unless it ends the string; it is the whole string exactly when there is no space |
| `Ownership.RustString.From` | learn_rust_book/projects/ownership/src/main.rs:202 | the new string holds exactly the literal's bytes |
| `Ownership.RustString.Clear` | learn_rust_book/projects/ownership/src/main.rs:206 | after `clear` the string is empty |
| `Ownership.RustString.PushStr` | learn_rust_book/projects/ownership/src/main.rs:126 | `push_str` appends its argument to the old contents |
| `Ownership.FirstWordThenClear` | learn_rust_book/projects/ownership/src/main.rs:201-210 | the index is the one of the string before the clear, and afterwards the string is empty |
| `Ownership.StaleIndexScenario` | learn_rust_book/projects/ownership/src/main.rs:201-210 | on "hello world" the index is 5 and the cleared length is 0, so the kept index exceeds the length and denotes no position |
| `Ownership.GivesOwnership` | learn_rust_book/projects/ownership/src/main.rs:66-75 | returns a fresh string holding "hello" |
| `Ownership.TakesAndGivesBack` | learn_rust_book/projects/ownership/src/main.rs:78-82 | the very string moved in is the one handed back |
| `Ownership.CalculateLength` | learn_rust_book/projects/ownership/src/main.rs:112-114 | the borrowed string's byte length |
| `Ownership.CalculateLengthMoved` | learn_rust_book/projects/ownership/src/main.rs:95-99 | hands back the same string together with its byte length |
| `Ownership.CalculateLengthVersionsAgree` | learn_rust_book/projects/ownership/src/main.rs:95-114 | the moved and the borrowed version measure the same length and the moved string comes back |
| `Ownership.Change` | learn_rust_book/projects/ownership/src/main.rs:125-127 | the exclusively borrowed string ends as its old contents followed by ", world" |
| `Ownership.ChangeScenario` | learn_rust_book/projects/ownership/src/main.rs:119-123 | "hello" becomes "hello, world", seven bytes longer |
| `Structs.BuildUser` | learn_rust_book/projects/structs/src/main.rs:74-81 | for any two strings, empty ones included: email and username are the arguments, active is true, sign_in_count is 1 |
| `Structs.BuildUserInjective` | learn_rust_book/projects/structs/src/main.rs:74-81 | two built records are equal exactly when they were built from the same email and username |
| `Structs.SetEmail` | learn_rust_book/projects/structs/src/main.rs:17 | the email becomes the new value; username, active and sign_in_count are unchanged |
| `Structs.SetEmailOfBuiltUser` | learn_rust_book/projects/structs/src/main.rs:10-17 | overwriting the email of a built record gives the record built with the new email |
| `Structs.ReassignEmailScenario` | learn_rust_book/projects/structs/src/main.rs:9-18 | the literal record with its email reassigned equals `build_user` of the new email and the same username |

## Left out

- Printing: every `println!` and the `takes_ownership` and `makes_copy` helpers, which only print.
- The `main` of the structs exercise (learn_rust_book/projects/structs/src/main.rs:64-72): it only prints a `User`, which has no `Display` implementation, so it does not compile.
- Move-versus-clone, scoped `&mut` borrows and `dangle`/`no_dangle`: these are compile-time ownership rules of Rust, not run-time behaviour; Dafny has no borrow checker to mirror them. `no_dangle` has the same behaviour as `GivesOwnership`.
- That the slice-returning `first_word` makes `s.clear()` a compile error while the slice is alive: a borrow-checker rule. The model shows the hazard the index version leaves open (`StaleIndexScenario`).
- UTF-8: in `ownership.dfy` strings are byte sequences with no UTF-8 validity requirement. General `&s[a..b]` slicing panics off a character boundary; `first_word` cuts only at an ASCII space, so that cannot happen in it.
- `usize` bounds: indices and lengths are `nat`. Results never exceed a string's length, which `usize` always holds.
- Memory release (`drop`) at the end of a scope.
- `learn_rust_book/chapter_3_variables/src/main.rs` and `learn_rust_book/projects/functions/src/main.rs`: they only rebind an integer and print parameters.
