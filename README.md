# Bloom filter model

This project models `BloomFilter`, a Go Bloom filter. The filter holds a bit vector of `m` bits and a count `k` of hash functions. `Add(data)` computes `k` seeded 64-bit hashes of the item, using seeds `0 .. k-1`. It reduces each hash modulo `m` and sets that bit. `Check(data)` runs the same probes and returns `false` at the first clear bit, or `true` when every probed bit is set.

The model lives in `bloomfilter.dfy`, in module `BloomFilter`:

- `Filter` is a class. Its `const` fields are `m`, `k`, the hash, and the bit array `b`. The Go code never reassigns any of them after construction; only the contents of `b` change. `Add` and `Check` are methods with loops that follow the Go loops.
- `ProbeScheme(m, k, hash)` is a value that holds the probing protocol `Add` and `Check` share. The functions over it form the specification:
  - `ProbeIndex` gives the bit probed with a given seed.
  - `AllProbesSet` is what `Check` must answer.
  - `Inserted` gives the bits after an `Add`.
  - `InsertedAll` gives the bits after a sequence of `Add`s.
- The hash (`murmur3.SeedStringSum64` in the source) is a constructor parameter of type `(u64, string) -> u64`. Any deterministic seeded 64-bit hash can be passed in, and every property below holds for every such hash.
- `u64` is Go's 64-bit `uint`/`uint64`. Seeds, `m`, `k` and hash values are all in that range. The loop counter `i < k` cannot overflow.
- The Go source has no guard against `m = 0`. With `m = 0` and `k >= 1`, `hash % m` panics on the first probe. With `m = 0` and `k = 0` the loops never reach the modulo: `Add` does nothing and `Check` returns `true` for every item. `New(n, 1.0)` with `n >= 1` builds exactly that filter, because `math.Log(1) = 0` gives `m = 0` and then `k = 0`. The model's precondition is `Probeable`: `m >= 1 || k == 0`. It rules out only the panicking filters and keeps the `(0, 0)` filter with its behaviour.
- When `m >= 1`, the sizing in `New` always gives `k >= 1`. A filter with `m >= 1` and `k = 0` can only be built by passing the integers directly. On it, too, `Check` answers `true` for every item, because `AllProbesSet` is vacuously true.

`New` does not validate `n` or `eps`, and the model adds no such check.

## Model

| member | source | states |
|---|---|---|
| `BloomFilter.ProbeIndex` | src/bloomfilter.go:34-35 | the bit probed for an item with a given seed (hash modulo `m`) always lies in `[0, m)` when `m >= 1` |
| `BloomFilter.Filter.constructor` | src/bloomfilter.go:24-28 | for any `m`, `k` that do not make the probes panic (`m >= 1 || k == 0`), a new filter stores `m` and `k` and holds a fresh array of exactly `m` bits, all clear |
| `BloomFilter.Filter.Add` | src/bloomfilter.go:32-38 | after `Add(data)` the bit vector is exactly the old vector with the `k` probed bits of `data` set (`Inserted`); `m`, `k`, the hash and the array itself are unchanged |
| `BloomFilter.Filter.Check` | src/bloomfilter.go:43-53 | returns `true` exactly when, for every seed `i < k`, the bit at `hash(i, data) % m` is set; it modifies nothing, so repeated calls on an unmodified filter give the same answer |
| `BloomFilter.SetBelowStep` | src/bloomfilter.go:33-37 | one loop iteration of `Add` (setting the probe with seed `n`) turns "first `n` probes set" into "first `n + 1` probes set" |
| `BloomFilter.InsertedExactly` | src/bloomfilter.go:33-37 | inserting an item changes only bits that are probes of that item, changes them only from clear to set, and leaves all `k` probes set |
| `BloomFilter.InsertedIsFound` | src/bloomfilter.go:32-53 | `Add` and `Check` probe the same indices, so right after inserting an item every one of its probes is set and `Check` answers `true` |
| `BloomFilter.InsertedGrows` | src/bloomfilter.go:36 | inserting never clears a bit: every bit set before is still set after, and the length is unchanged |
| `BloomFilter.FoundStaysFound` | src/bloomfilter.go:44-52 | if all probes of an item are set, they remain set in any vector that only gained bits |
| `BloomFilter.InsertIdempotent` | src/bloomfilter.go:33-37 | inserting the same item twice yields the same bit vector as inserting it once |
| `BloomFilter.InsertCommutes` | src/bloomfilter.go:32-38 | the bit vector after inserting two items does not depend on the order of insertion |
| `BloomFilter.NoFalseNegatives` | src/bloomfilter.go:32-53 | after any sequence of insertions, every item that was inserted at any point has all its probes set (`Check` answers `true`) |
| `BloomFilter.EmptyFindsNothing` | src/bloomfilter.go:44-48 | on a freshly allocated, all-clear vector with `k >= 1`, no item has all its probes set, so `Check` answers `false` for every item |
| `BloomFilter.FreshFilterFindsNothing` | src/bloomfilter.go:43-53 | a filter just built with `m >= 1` and `k >= 1` reports every item absent |
| `BloomFilter.EmptySchemeFindsEverything` | src/bloomfilter.go:32-53 | on the filter with `m = 0` and `k = 0`, `Add` does nothing and `Check` returns `true` for every item, without reaching the modulo |
| `BloomFilter.AddedItemsAreFound` | src/bloomfilter.go:32-53 | on a real filter object, after `Add` has been called on every item of any sequence in order, the bit vector is `InsertedAll` of the old vector and that sequence, and `Check(x)` returns `true` for every `x` in that sequence |

## Left out

- `BloomFilter.Filter.constructor`: the precondition `m >= 1 || k == 0` excludes filters with `m = 0` and `k >= 1`. On those, Go's `hash % m` at src/bloomfilter.go:35 and :46 panics with a division by zero on the first probe. The model does not capture that panic.
- Sizing in `New` (src/bloomfilter.go:19 and :22): the formulas for `m` and `k` use `math.Ceil`, `math.Log` and `math.Pow` on `float64`. Floating point is not modelled, so the constructor takes `m` and `k` as given integers. Properties of the sizing formulas, such as `m` never decreasing as `n` grows, are therefore not stated.
- The murmur3 hash (`github.com/twmb/murmur3`) is a foreign library. It is an arbitrary deterministic function passed to the constructor; its distribution is not modelled.
- The `willf/bitset` library is a foreign library and its packed-word layout is not modelled. The bit vector is an `array<bool>` with set/test semantics. The library's growth when setting an index beyond its length never happens here, because every probe is below `m`.
- False-positive rates: the statistical bound is a probabilistic claim and is not stated.
- Concurrency: the source has none and promises none.
- Go strings are byte strings; items are modelled as Dafny `string` values. Nothing depends on their encoding beyond being passed to the hash.
