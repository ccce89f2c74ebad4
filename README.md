# Result wrapper (`mod.ts`) in Dafny

This project models the utility module `mod.ts`. It provides a generic
`Result<T>` container with two public, independently nullable fields: `value`
and `error`. It also provides two total factories. `val(v)` builds a
value-bearing result. `err(e)` builds an error-bearing one. The constructor
stores what it is given and validates nothing. Its `error` argument defaults
to `null`. A result with both fields set, or with neither, is legal and is
kept as given.

The model sits in module `Utils` (`mod.dfy`), with the `Option` marker in module
`Wrappers` (`wrappers.dfy`):

- `Result<T, E>` is a datatype with fields `value: Option<T>` and
  `error: Option<E>`. `None` plays the role of `null`. `E` stands for the opaque
  JavaScript `Error` object. The nullable pair is kept on purpose: a tagged
  union would make the both-set and both-empty shapes unrepresentable, and the
  source allows both.
- `New` is the constructor, with `error := None` as the default.
- `Val` and `Err` are the factories. `Err` leaves the value type free, which
  stands for the widening to `Result<any>`.
- `IsErr` is the caller-side test from the documentation example
  (`if (rslt.error)`); `IsErrClassifiesShapes` says what it tells a caller.
- `ValueBearing` and `ErrorBearing` name the two well-formed shapes.

## Model

| member | source | states |
|---|---|---|
| Utils.New | mod.ts:53 | the constructor stores `value` and `error` verbatim, with no validation or normalisation |
| Utils.Val | mod.ts:62-64 | `val(v)` has value `v` and no error; it is value-bearing and the caller's test reads it as a success; total |
| Utils.Err | mod.ts:72-74 | `err(e)` has error `e` and no value, for any value type; it is error-bearing and reads as a failure; total |
| Utils.IsErrClassifiesShapes | mod.ts:27-30 | the caller's `if (rslt.error)` test reads a result as a failure exactly when it is some `err(e)` or has both fields present, and as a success exactly when it is some `val(v)` or has both fields absent |
| Utils.NewDefaultsToNoError | mod.ts:53 | omitting the error argument gives an absent error and keeps the value |
| Utils.NewReachesEveryResult | mod.ts:53 | every result, in any of the four shapes, is what the constructor builds from its own fields |
| Utils.AmbiguousShapesKept | mod.ts:53 | both-absent and both-present results are legal and kept as given; the caller's test reads the first as success and the second as failure |
| Utils.ValIsNewWithoutError | mod.ts:62-64 | `val(v)` equals `new Result(v, null)` and `new Result(v)` |
| Utils.ErrIsNewWithoutValue | mod.ts:72-74 | `err(e)` equals `new Result(null, e)` |
| Utils.FactoriesInjectiveAndDisjoint | mod.ts:62-74 | `val` and `err` are injective, and no `val` result equals an `err` result |
| Utils.ValueBearingIffVal | mod.ts:62-64 | a result has a value and no error if and only if it is `val(v)` for some `v` |
| Utils.ErrorBearingIffErr | mod.ts:72-74 | a result has an error and no value if and only if it is `err(e)` for some `e` |

## Left out

- The internals of the `Error` object (message, stack, prototype) are left out. The module only stores and passes it through, so it is the opaque type parameter `E`.
- Reference identity is not modelled, neither of the payloads nor of the results. Payloads and results are values compared structurally with `==`. In the source every `val`/`err` call builds a fresh object, so `val(v) === val(v)` is false there, while `Val(v) == Val(v)` holds here (`FactoriesInjectiveAndDisjoint`).
- Utils.Val, Utils.ValueBearingIffVal: a nullable `T` is not modelled. In TypeScript, `val(null)` with `T` including `null` gives a result with both fields `null`. In the model, `Val(v)` always has a present value. The both-absent shape is still reachable through `New`.
- `undefined` is not modelled as distinct from `null`. Passing `undefined` as the error takes the default, which is what omitting the argument does (`NewDefaultsToNoError`).
- Assigning the public fields after construction is not modelled. The fields are writable, but nothing in the module writes them, so results are immutable values here.
- The TypeScript typing of `err` as `Result<any>` is a type-level convenience. It appears only as the free value-type parameter of `Err`.
- The promise usage and the import example in the module's doc comments are left out. They are prose, not code of the module.
