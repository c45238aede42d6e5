/** How the permissions that a node's users take on it become permissions on its children (block.c). */
module Perms {
  import opened BlockGraph

  const ALL: set<Perm> := {ConsistentRead, Write, WriteUnchanged, Resize}

  /** What is taken, and what other users of the same node may take. */
  datatype Grant = Grant(perm: set<Perm>, shared: set<Perm>)

  /** a asks for no more than b and leaves no less to others. */
  predicate Looser(a: Grant, b: Grant) {
    a.perm <= b.perm && b.shared <= a.shared
  }

  /**
   The fields of a node that permissions depend on: BDRV_O_RDWR, BDRV_O_INACTIVE,
   BDRV_O_NO_IO, BDRV_O_RO_WRITE_SHARE, force_share, whether there is a driver, and
   whether the size is a multiple of the request alignment.
   */
  datatype Attr = Attr(rdwr: bool, inactive: bool, noIo: bool, roWriteShare: bool, forceShare: bool,
                       hasDriver: bool, aligned: bool)

  /** bdrv_is_writable */
  predicate Writable(a: Attr) {
    a.rdwr && !a.inactive
  }

  predicate Writes(g: Grant) {
    Write in g.perm || WriteUnchanged in g.perm
  }

  /** bdrv_filter_default_perms: all four permissions are passed through. */
  function FilterPerms(g: Grant): Grant {
    Grant(g.perm * ALL, g.shared * ALL)
  }

  /** bdrv_default_perms_for_cow */
  function CowPerms(a: Attr, g: Grant): Grant {
    var shared := (if Write in g.shared then {Write, Resize} else {}) + {ConsistentRead, WriteUnchanged};
    Grant(g.perm * {ConsistentRead}, if a.inactive then shared + {Write, Resize} else shared)
  }

  function MetadataPerms(a: Attr, g: Grant): Grant {
    var perm := if Writable(a) then g.perm + {Write, Resize} else g.perm;
    Grant(if a.noIo then perm else perm + {ConsistentRead}, g.shared - {Write, Resize})
  }

  function DataPerms(g: Grant): Grant {
    var perm := if WriteUnchanged in g.perm then g.perm + {Write} else g.perm;
    Grant(if Write in perm then perm + {Resize} else perm, g.shared - {Resize})
  }

  /** bdrv_default_perms_for_storage */
  function StoragePerms(a: Attr, role: Role, g: Grant): Grant {
    var f := FilterPerms(g);
    var m := if role.HasMetadata() then MetadataPerms(a, f) else f;
    var d := if role.HasData() then DataPerms(m) else m;
    if a.inactive || a.roWriteShare then d.(shared := d.shared + {Write, Resize}) else d
  }

  /** bdrv_default_perms */
  function DefaultPerms(a: Attr, role: Role, g: Grant): Grant {
    match role
    case Filtered => FilterPerms(g)
    case Cow => CowPerms(a, g)
    case _ => StoragePerms(a, role, g)
  }

  lemma DataPermsMonotone(g: Grant, h: Grant)
    requires Looser(g, h)
    ensures Looser(DataPerms(g), DataPerms(h))
  {
  }

  lemma MetadataPermsMonotone(a: Attr, g: Grant, h: Grant)
    requires Looser(g, h)
    ensures Looser(MetadataPerms(a, g), MetadataPerms(a, h))
  {
  }

  /** Users that ask for less and share more make the node ask its children for less and share more. */
  lemma DefaultPermsMonotone(a: Attr, role: Role, g: Grant, h: Grant)
    requires Looser(g, h)
    ensures Looser(DefaultPerms(a, role, g), DefaultPerms(a, role, h))
  {
    if !role.Filtered? && !role.Cow? {
      var g0, h0 := FilterPerms(g), FilterPerms(h);
      MetadataPermsMonotone(a, g0, h0);
      var g1 := if role.HasMetadata() then MetadataPerms(a, g0) else g0;
      var h1 := if role.HasMetadata() then MetadataPerms(a, h0) else h0;
      DataPermsMonotone(g1, h1);
    }
  }

  /** A filter passes on what its users take and share. */
  lemma FilterPassesOn(a: Attr, g: Grant, p: Perm)
    ensures p in DefaultPerms(a, Filtered, g).perm <==> p in g.perm
    ensures p in DefaultPerms(a, Filtered, g).shared <==> p in g.shared
  {
  }

  /**
   A backing file is read consistently exactly if the users need that, and otherwise left
   alone; others may write and resize it exactly if the users can deal with that or the
   node is inactive.
   */
  lemma CowReadsOnly(a: Attr, g: Grant, p: Perm)
    ensures p in DefaultPerms(a, Cow, g).perm <==> p == ConsistentRead && ConsistentRead in g.perm
    ensures p in DefaultPerms(a, Cow, g).shared <==>
      p == ConsistentRead || p == WriteUnchanged || Write in g.shared || a.inactive
  {
  }

  /**
   A file below a format is taken as the users take it, and beyond that: one with
   metadata is read, if there is I/O at all, and written and resized if the node is
   writable; one with data is written if the users write unchanged data, and resized if
   it is written.
   */
  lemma StorageTakes(a: Attr, role: Role, g: Grant, p: Perm)
    requires role.HasMetadata() || role.HasData()
    ensures var taken := DefaultPerms(a, role, g).perm;
      match p
      case ConsistentRead => p in taken <==> p in g.perm || (role.HasMetadata() && !a.noIo)
      case WriteUnchanged => p in taken <==> p in g.perm
      case Write => p in taken <==>
        p in g.perm || (role.HasMetadata() && Writable(a)) || (role.HasData() && WriteUnchanged in g.perm)
      case Resize => p in taken <==>
        p in g.perm || (role.HasMetadata() && Writable(a)) || (role.HasData() && Write in taken)
  {
  }

  /**
   It is shared as the users share it, except that nobody else may resize it, or write
   one with metadata, unless the node is inactive or was opened with write sharing.
   */
  lemma StorageShares(a: Attr, role: Role, g: Grant, p: Perm)
    requires role.HasMetadata() || role.HasData()
    ensures var shared := DefaultPerms(a, role, g).shared;
      match p
      case ConsistentRead => p in shared <==> p in g.shared
      case WriteUnchanged => p in shared <==> p in g.shared
      case Write => p in shared <==> (p in g.shared && !role.HasMetadata()) || a.inactive || a.roWriteShare
      case Resize => p in shared <==> a.inactive || a.roWriteShare
  {
  }

  /**
   The safety that the defaults are there for: a backing file is never written
   through its overlay, and a format's metadata file lets nobody else write or
   resize it unless the node is inactive or was opened with write sharing.
   */
  lemma DefaultPermsProtect(a: Attr, role: Role, g: Grant)
    ensures role == Cow ==> !Writes(DefaultPerms(a, role, g)) && Resize !in DefaultPerms(a, role, g).perm
    ensures role.HasMetadata() && !a.inactive && !a.roWriteShare ==>
      Write !in DefaultPerms(a, role, g).shared && Resize !in DefaultPerms(a, role, g).shared
    ensures role.HasData() && Writes(DefaultPerms(a, role, g)) ==> Resize in DefaultPerms(a, role, g).perm
  {
  }
}
