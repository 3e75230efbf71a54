/** The services a node can offer (src/config.rs) and the bytes their names are hashed
    as. */
module Services {

  datatype Service = Gc | CompactorCoordinator | CompactionWorkers | Mirror

  type Bytes = seq<bv8>

  /** `as_str`, in ASCII: "gc", "compactor-coordinator", "compaction-workers", "mirror". */
  function ServiceBytes(s: Service): Bytes {
    match s
    case Gc => [0x67, 0x63]
    case CompactorCoordinator =>
      [0x63, 0x6f, 0x6d, 0x70, 0x61, 0x63, 0x74]
      + [0x6f, 0x72, 0x2d, 0x63, 0x6f, 0x6f, 0x72]
      + [0x64, 0x69, 0x6e, 0x61, 0x74, 0x6f, 0x72]
    case CompactionWorkers =>
      [0x63, 0x6f, 0x6d, 0x70, 0x61, 0x63, 0x74]
      + [0x69, 0x6f, 0x6e, 0x2d, 0x77, 0x6f, 0x72]
      + [0x6b, 0x65, 0x72, 0x73]
    case Mirror => [0x6d, 0x69, 0x72, 0x72, 0x6f, 0x72]
  }
}
