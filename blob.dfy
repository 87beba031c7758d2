/**
 * The symbolic attributes of a physical blob object: its shape and data type (the op-arg blob
 * attribute) and its placement and distribution (the op-arg parallel attribute).
 */
module Blob {

  type Shape = seq<int>

  /** The numeric code of a data type, `blob_attr->get_dtype()`. */
  type DataType = int

  datatype ParallelConf = ParallelConf(deviceTag: string, deviceNames: seq<string>)

  /** A placement symbol: an id registered once for a parallel configuration. */
  datatype ParallelDesc = ParallelDesc(symbolId: int, parallelConf: ParallelConf) {
    function DeviceTag(): string { parallelConf.deviceTag }
  }

  datatype SbpParallel = SplitParallel(axis: int) | BroadcastParallel | PartialSumParallel

  datatype OptMirroredParallel = OptMirroredParallel(hasMirroredParallel: bool)

  datatype OpArgParallelAttribute = OpArgParallelAttribute(
    parallelDescSymbol: ParallelDesc,
    sbpParallel: SbpParallel,
    optMirroredParallel: OptMirroredParallel)

  datatype OpArgBlobAttribute = OpArgBlobAttribute(shape: Shape, dtype: DataType)

  datatype BlobObject = BlobObject(
    objectId: int,
    opArgBlobAttr: OpArgBlobAttribute,
    opArgParallelAttr: OpArgParallelAttribute)
  {
    function ParallelDescSymbol(): ParallelDesc { opArgParallelAttr.parallelDescSymbol }
  }
}
