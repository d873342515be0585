# PPM task parameters in Dafny

This project models the task-parameter layer of the PPM prototype (a Prio-style
privacy-preserving measurement system). Every party to a task is given the same
`Parameters` record: a 16-byte nonce, the Leader's and Helper's URLs, the
collector's HPKE configuration, the minimum batch size, the batch window and the
protocol variant. From that record each party derives the 32-byte task
identifier with `Parameters::task_id`.

The model is the module `TaskParameters` in `parameters.dfy`:

- `Parameters`, `HpkeConfig`, `Protocol` and `Duration` are datatypes. The
  source only builds, clones and compares them and never changes them in place.
  The integer widths of the source are explicit newtypes: `byte` (`u8`), `u16`,
  `u32` and `u64`. So an `HpkeConfig` id lies in 0..255, and its KEM, KDF and
  AEAD ids lie in 0..65535. `Protocol` has exactly the two cases `Prio` and
  `HeavyHitters`.
- `Nonce` and `TaskId` are byte sequences of length 16 and 32, the fixed-size
  arrays of the source. Any value of type `TaskId` is therefore 32 bytes wide.
- `TaskIdOf` is `Parameters::task_id`, written the way the source does it. It
  allocates a zeroed 32-byte array and copies the nonce into its first 16
  bytes in a loop (the source calls `copy_from_slice`). It then returns the
  array's contents by value. It is proved against the specification function
  `ZeroPadded`.
- The documentation of `TaskId` says that the identifier is a SHA-256 hash
  over the parameters. The code computes no hash: it zero-pads the nonce. The
  model follows the code. So the task id is injective in the nonce and ignores
  every other field, and the lemmas prove both.

## Model

| member | source | states |
|---|---|---|
| `TaskParameters.ZeroPadded` | src/parameters.rs:48-49 | the 32-byte task id holds the nonce byte for byte in positions 0..15 and zero in positions 16..31 |
| `TaskParameters.TaskIdOf` | src/parameters.rs:42-51 | filling a zeroed 32-byte buffer with the nonce gives exactly the zero-padded nonce; the parameters are only read |
| `TaskParameters.NonceOf` | src/parameters.rs:49 | the first 16 bytes of an id are its nonce slice; re-padding them gives the id back whenever the id's tail is zero |
| `TaskParameters.NonceOfZeroPadded` | src/parameters.rs:48-49 | truncating a task id to 16 bytes recovers the nonce it was derived from (round trip) |
| `TaskParameters.ZeroPaddedImage` | src/parameters.rs:48-49 | a 32-byte string is the task id of some nonce if and only if its last 16 bytes are zero |
| `TaskParameters.ZeroPaddedInjective` | src/parameters.rs:115-150 | two nonces give the same task id if and only if they are equal |
| `TaskParameters.TaskIdDependsOnlyOnNonce` | src/parameters.rs:42-51 | two parameter sets share a task id if and only if their nonces are equal, whatever their other fields |
| `TaskParameters.TaskIdTwice` | src/bin/client.rs:63-70 | deriving the task id twice from the same parameters gives the same id, which starts with the nonce and ends in zeros |
| `TaskParameters.TaskIdTest` | src/parameters.rs:115-150 | the parameter sets with nonces 0..15 and 1..16 (and different collector keys) get different task ids |

## Left out

- `Parameters::from_json_reader` and the `Error::JsonParse` variant (src/parameters.rs:10-14, 37-39), with the JSON parse test (src/parameters.rs:88-113): these are JSON deserialisation by the `serde_json` library, whose code is not part of this model.
- The SHA-256 task-id derivation described at src/parameters.rs:54-55: the code does not implement it, so nothing here models it.
- `Url`: kept as an uninterpreted string; URL parsing and joining belong to the `url` library.
- `Duration`: kept as seconds plus nanoseconds below one second, the shape of `std::time::Duration`; none of its arithmetic is used by the modelled code.
- The HPKE algorithm ids used by the unit test come from the `hpke` library; the model writes them out as the values of section 7 of RFC 9180.
- src/bin/client.rs and src/bin/leader.rs are process entry points (tracing setup, HTTP upload, HPKE encryption, leader start-up). They are not part of this model; only the client's double use of `task_id` is reflected, in `TaskIdTwice`.
- tests/tests.rs: network integration tests of the aggregation, collection and error-reporting modules, which are not part of this model.
