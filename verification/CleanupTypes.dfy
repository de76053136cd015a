/** Values shared by the reversible clean-up model: names, contents, plans and
    receipts.  Cryptography is symbolic: a digest or a tag is the constructor
    applied to what it was computed from, so it is injective by construction. */
module CleanupTypes {
  import opened Wrappers

  type Ino = nat

  /** The name of a directory entry: the directory's inode and one path component. */
  datatype Key = Key(dir: Ino, name: string)

  /** Permission bits (0 to 0o777) and numeric ownership. */
  datatype Meta = Meta(mode: nat, uid: nat, gid: nat)

  const MODE_0600 := 384
  const MODE_0700 := 448
  const MODE_0755 := 493
  const MODE_0777 := 511

  predicate GroupOrOthersMayWrite(mode: nat) {
    (mode / 16) % 2 == 1 || (mode / 2) % 2 == 1
  }

  datatype Content = Raw(bytes: string) | KeyFile(secret: nat) | ReceiptFile(receipt: Receipt)

  const MAXIMUM_LEGACY_FILE_BYTES := 8388608
  const PRIVATE_INTEGRITY_KEY_BYTES := 32

  function Size(content: Content): nat {
    match content
    case Raw(bytes) => |bytes|
    case KeyFile(_) => PRIVATE_INTEGRITY_KEY_BYTES
    case ReceiptFile(_) => 0
  }

  datatype Digest = Sha256(of: Content)
  datatype Tag = Hmac(secret: nat, of: Content)

  /** What a receipt retains about the removed entry.  `Public` is a regular file
      with a published digest, `Private` one with a keyed tag, `Link` a symbolic link. */
  datatype Evidence =
    | Public(digest: Digest, size: nat)
    | Private(tag: Tag, size: nat)
    | Link(target: string)

  /** One recognised finding of a reviewed plan.  `dirs` and `leaf` are the target
      relative to the selected root, whichever scope compiled it. */
  datatype Reviewed =
    | ReviewedFile(digest: Digest, size: nat)
    | ReviewedPrivateFile(size: nat)
    | ReviewedLink(target: string)

  datatype Finding = Finding(rule: string, dirs: seq<string>, leaf: string, reviewed: Reviewed, meta: Meta)

  /** One receipt item.  The public paths of the source are the root, the backup
      directory or the target's parent followed by these components. */
  datatype Item = Item(rule: string, dirs: seq<string>, leaf: string, quarantine: Option<string>,
                       evidence: Evidence, meta: Meta)

  datatype ReceiptState = Prepared | Complete

  datatype Receipt = Receipt(state: ReceiptState, stamp: string, changes: seq<Item>)

  const QUARANTINE_PREFIX := ".lexr-cleanup-"

  predicate QuarantineName(name: string) {
    QUARANTINE_PREFIX <= name
  }
}
