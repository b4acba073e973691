# pcstat mount-namespace switching, modelled in Dafny

pcstat reports page-cache residency for the files a process has open. When
that process runs in another mount namespace (a container, say), its paths
resolve only inside that namespace. So pcstat first compares its own
mount namespace with the target's and, when they differ, moves its OS thread
into the target's namespace. This project models that logic in
`pkg/mnt_ns_linux.go` and proves properties of it.

- `golib.dfy`, module `GoLib`: the Go library calls the code relies on.
  These are `strings.TrimPrefix`, `strings.TrimSuffix` and `strconv.Atoi`
  (optional sign, decimal digits, 64-bit `int` range). Syntax and range
  errors are kept apart as Go's implementation does it. Digits are read left
  to right into a `uint64`, and an overflow is a range error at once, even
  when a non-digit comes later. Decimal rendering (`Decimal`, and `Itoa`
  modelling `strconv.Itoa`) is included as Atoi's inverse.
- `mount_ns.dfy`, module `MountNs`: `getMountNs` is a pure function
  `GetMountNs`. It maps the outcome of reading the `/proc/<pid>/ns/mnt` link
  (`ReadFailed` or `ReadOk(text)`) to `Value(n)` or `Fatal`. `SwitchMountNs`
  has two parts. `SwitchDecision` is the comparison of the two lookups. The
  method `SwitchMountNs` runs that comparison and calls the entry when the
  ids differ. It returns nothing and throws away the entry's error.
- `ns_entry.dfy`, module `NsEntry`: `setns` is the method
  `Caller.Setns`. It works on a class whose fields are the calling
  goroutine's state: whether the process has exited, whether the thread is
  locked, whether filesystem attributes are unshared, whether the namespace
  file is open, whether the thread has joined a namespace, and a log of the
  system calls made. Each fallible system call's result is an input, the
  `Oracle`. The pure function `Entry` states which calls an entry makes and
  which error tag it returns. The method is proved to match it.

What the code accepts is wider than what the kernel writes:

- The kernel writes the link as `mnt:[<number>]`. The code removes the
  prefix and the suffix only when they are there, so it also accepts text
  with neither, or with only one of them.
- `Atoi` accepts a leading `+` or `-`, so `mnt:[-5]` yields `-5`.
- A number too large for a Go `int` is fatal, just like non-numeric text.
- The sentinel `0` looks exactly like a real namespace numbered `0`.
  Also, if the caller cannot read its own link but can read the target's,
  which names a non-zero namespace, an entry is attempted.

## Model

| member | source | states |
|---|---|---|
| `GoLib.TrimPrefix` | pkg/mnt_ns_linux.go:51 | when the text starts with `mnt:[` the result is the text with that one copy removed (prefix + result = text); otherwise the text is returned unchanged |
| `GoLib.TrimSuffix` | pkg/mnt_ns_linux.go:52 | when the text ends with `]` the result is the text with that one copy removed (result + suffix = text); otherwise the text is returned unchanged |
| `GoLib.Atoi` | pkg/mnt_ns_linux.go:53 | empty text is a syntax error; a parsed value always fits a 64-bit `int` and comes from non-empty text where every character after the first is a digit; a negative value comes only from a leading `-`; a range error needs at least 19 characters, so short text is never out of range |
| `GoLib.AtoiDecimal` | pkg/mnt_ns_linux.go:53 | the decimal digits of any natural number parse back to that number when it fits an `int`, and give a range error when it does not |
| `GoLib.AtoiItoa` | pkg/mnt_ns_linux.go:53 | Atoi undoes Itoa for every `int`, negative values included |
| `GoLib.AtoiAcceptsDigits` | pkg/mnt_ns_linux.go:53 | every unsigned digit string in range parses to its value, even with leading zeros |
| `GoLib.AtoiRejectsNonDigit` | pkg/mnt_ns_linux.go:53 | a non-digit anywhere past an optional leading sign makes Atoi fail, and for text shorter than 19 characters the failure is a syntax error |
| `GoLib.AtoiRangeBeforeNonDigit` | pkg/mnt_ns_linux.go:53 | a digit run that overflows `uint64` is a range error even when a non-digit follows it, because Go stops at the overflowing digit |
| `GoLib.AtoiCharacterised` | pkg/mnt_ns_linux.go:53 | Atoi parses a text exactly when it is an optional sign followed by one or more digits whose signed value fits an `int`, and the result is that signed value; such a text out of range is a range error; a text under 19 characters that is not of that form is a syntax error |
| `GoLib.AtoiSignExamples` | pkg/mnt_ns_linux.go:53 | `+5` parses to 5, while a lone `-` or `+` is a syntax error |
| `MountNs.GetMountNs` | pkg/mnt_ns_linux.go:41-61 | a failed read or empty text gives the sentinel `0`; a returned number fits an `int`; for other text the outcome is Fatal exactly when Atoi rejects the text left after trimming, and otherwise the returned number is Atoi's value of that text |
| `MountNs.ParseWrapped` | pkg/mnt_ns_linux.go:51-58 | text `mnt:[` + m + `]` is parsed as Atoi parses m: exactly that one layer of wrapping is removed |
| `MountNs.ParseBare` | pkg/mnt_ns_linux.go:51-58 | non-empty text that has neither the prefix nor the suffix is parsed by Atoi as it is |
| `MountNs.ParsePrefixOnly` | pkg/mnt_ns_linux.go:51-60 | text `mnt:[` + m, where m does not end in `]`, loses only the prefix and is parsed as Atoi parses m |
| `MountNs.ParseSuffixOnly` | pkg/mnt_ns_linux.go:51-60 | text m + `]` that does not start with `mnt:[` loses only the suffix and is parsed as Atoi parses m |
| `MountNs.RoundTrip` | pkg/mnt_ns_linux.go:51-60 | for every namespace number N that fits an `int`, the kernel's text `mnt:[N]` parses to `Value(N)` |
| `MountNs.RoundTripOverflow` | pkg/mnt_ns_linux.go:53-58 | a link naming a number too large for an `int` is Fatal |
| `MountNs.WrappedNonDigitFatal` | pkg/mnt_ns_linux.go:53-58 | wrapped text containing a non-digit past an optional sign is Fatal, never a returned value |
| `MountNs.ParseBareExample` | pkg/mnt_ns_linux.go:51-53 | `123`, with no prefix and no suffix, parses to 123 |
| `MountNs.ParsePrefixOnlyExample` | pkg/mnt_ns_linux.go:51-53 | `mnt:[42`, with the prefix but no suffix, parses to 42 |
| `MountNs.ParseMalformedExamples` | pkg/mnt_ns_linux.go:53-58 | `mnt:[abc]` and `mnt:[]` are Fatal |
| `MountNs.ParseTrimsOnceExamples` | pkg/mnt_ns_linux.go:51-58 | `mnt:[7]]` and `mnt:[mnt:[7]` are Fatal: prefix and suffix each come off at most once |
| `MountNs.ParseSignedExample` | pkg/mnt_ns_linux.go:53 | `mnt:[-5]` yields `-5`, following Atoi's sign rule |
| `MountNs.ParseSignExamples` | pkg/mnt_ns_linux.go:51-58 | `mnt:[+5]` yields 5; `mnt:[-]` and `mnt:[+]` are Fatal |
| `MountNs.WrappedOutOfRangeFatal` | pkg/mnt_ns_linux.go:53-58 | a wrapped decimal integer whose signed value lies outside the `int` range is Fatal, whatever its sign or leading zeros |
| `MountNs.NegativeOverflowFatal` | pkg/mnt_ns_linux.go:53-58 | `mnt:[-N]` with -N below the `int` minimum (for example `mnt:[-9223372036854775809]`) is Fatal |
| `MountNs.PaddedOverflowFatal` | pkg/mnt_ns_linux.go:53-58 | `mnt:[0N]` with N above the `int` maximum (for example `mnt:[09223372036854775808]`) is Fatal: leading zeros do not help |
| `MountNs.SwitchDecision` | pkg/mnt_ns_linux.go:32-39 | identical link reads never cause an entry; two failed reads (both the sentinel) mean no entry; a Fatal lookup of either link terminates the process; an entry happens only when both ids are known and different |
| `MountNs.EnterIffDiffer` | pkg/mnt_ns_linux.go:36-38 | when both lookups return a number, entry happens if and only if the numbers differ, and nothing happens if and only if they are equal |
| `MountNs.DistinctNamespacesEnter` | pkg/mnt_ns_linux.go:33-38 | links naming two different in-range namespaces cause an entry |
| `MountNs.SameNamespaceStays` | pkg/mnt_ns_linux.go:33-38 | links naming the same namespace cause no entry |
| `MountNs.SentinelAgainstReadable` | pkg/mnt_ns_linux.go:36-48 | an unreadable link against a readable one causes an entry unless the readable link names namespace 0, whichever side is unreadable |
| `MountNs.SwitchMountNs` | pkg/mnt_ns_linux.go:32-39 | the process exits exactly when a lookup is Fatal. Without an entry, the thread state and call log stay as they were. With one, the call log grows by exactly one entry sequence for the target pid. The entry's error goes nowhere, since the method has no result |
| `MountNs.HostToContainer` | pkg/mnt_ns_linux.go:32-86 | worked scenario: a fresh goroutine in host namespace 4026531840 switching to a target in namespace 4026532512 makes exactly one entry. The call log is that entry's calls, the target's namespace file is opened exactly when unshare succeeds, and the thread joins exactly when all three calls succeed |
| `NsEntry.Entry` | pkg/mnt_ns_linux.go:63-86 | calls happen in the fixed order lock, unshare, open, setns, close, stopping early. The lock always comes first, before any failure. The result is Ok exactly when unshare, open and setns all succeed, and the first failure picks the tag (UnshareErr, OpenErr, SetnsErr) with no later step run. The file is opened only after a successful unshare and is closed, as the last call, exactly when the open succeeded |
| `NsEntry.Caller.Setns` | pkg/mnt_ns_linux.go:63-86 | returns `Entry`'s tag and appends `Entry`'s calls to the log. On every path the thread ends locked and the namespace file closed. Filesystem attributes are unshared once unshare succeeds. The thread has joined a namespace once the entry succeeds |
| `NsEntry.Caller.CloseNs` | pkg/mnt_ns_linux.go:80 | the deferred close releases the open namespace file and logs the close; nothing else changes |
| `NsEntry.Caller.Exit` | pkg/mnt_ns_linux.go:57 | log.Fatalf marks the process as exited; nothing else changes |

## Left out

- The system calls `os.Readlink`, `os.Open`, `unix.Unshare`, `unix.Setns` and `runtime.LockOSThread` are not modelled. The link read is an input (`LinkRead`). The three fallible calls are an `Oracle` of success or failure. The lock cannot fail.
- `os.Getpid` and the `fmt.Sprintf` path building are not modelled. The caller supplies the reads of its own link and of the target's. The target pid appears only as the argument of the `OpenNsFile` call.
- The text of `log.Fatalf`'s message and of the wrapped `fmt.Errorf` errors is not modelled. Termination is `Fatal` (or `Caller.exited`), and an entry error is its tag without the underlying errno.
- Kernel mount-namespace semantics are not modelled: what a later read of `/proc/self/ns/mnt` reports after an entry. A second switch to the same target is a no-op only if the kernel then reports equal ids, and that is not proved.
- Scheduling of goroutines onto OS threads and sharing of `CLONE_FS` between threads are not modelled, because they are concurrency and runtime internals.
- Go's `int` is modelled as 64 bits wide, so Atoi's range is that of amd64 and arm64, not of 32-bit platforms.
- Go strings are bytes and these are `seq<char>`. This makes no difference here: a byte outside ASCII is never a digit, prefix or suffix.
- NsEntry.Caller.Setns: `joined` records that the thread entered some target namespace, not which one; the target is visible only as the pid in the logged `OpenNsFile` call.
