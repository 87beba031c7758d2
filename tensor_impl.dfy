/**
 * Tensor implementations: cached shape, data type and placement that are re-derived from a bound
 * blob object, and, for mirrored tensors, a device and a placement derived from each other.
 *
 * The C++ hierarchy TensorImpl > MirroredTensorImpl > EagerMirroredTensorImpl and
 * TensorImpl > ConsistentTensorImpl > EagerConsistentTensorImpl is flattened into its two eager
 * leaves; each carries the fields of its ancestors, and the calls the base class makes to its
 * virtual setters are the leaf's own setters.
 */
module TensorImpl {
  import opened Base
  import opened Blob

  datatype Device = Device(deviceType: string, deviceId: int)

  datatype DType = DType(dataType: DataType)

  /**
   * The lookups the setters call and do not define, each of which may fail:
   * `Device::MakeParallelDescByDevice`, `Device::MakeDeviceByParallelDesc` and
   * `DType::GetDTypeByDataType`.
   */
  datatype Platform = Platform(
    parallelDescByDevice: Device -> Result<ParallelDesc>,
    deviceByParallelDesc: ParallelDesc -> Result<Device>,
    dtypeByDataType: DataType -> Result<DType>)

  /** Where both device mappings succeed, each undoes the other. */
  ghost predicate MappingsAgree(p: Platform) {
    (forall d :: p.parallelDescByDevice(d).Ok? ==> p.deviceByParallelDesc(p.parallelDescByDevice(d).value) == Ok(d))
    && (forall pd :: p.deviceByParallelDesc(pd).Ok? ==> p.parallelDescByDevice(p.deviceByParallelDesc(pd).value) == Ok(pd))
  }

  class TensorStorage {
    const parallelDesc: ParallelDesc

    constructor (parallelDesc: ParallelDesc)
      ensures this.parallelDesc == parallelDesc
    {
      this.parallelDesc := parallelDesc;
    }
  }

  class EagerMirroredTensorImpl {
    const requiresGrad: bool
    const isLeaf: bool
    const retainGrad: bool
    var device: Device
    var parallelDesc: Option<ParallelDesc>
    var shape: Shape
    var dtype: DType
    var tensorStorage: TensorStorage?
    var blobObject: Option<BlobObject>

    /** The device and the placement name the same devices, in both directions. */
    ghost predicate DeviceMatchesPlacement(p: Platform)
      reads this
    {
      parallelDesc.Some?
      && p.parallelDescByDevice(device) == Ok(parallelDesc.value)
      && p.deviceByParallelDesc(parallelDesc.value) == Ok(device)
    }

    /** The cached attributes are those of the bound blob object. */
    ghost predicate Synced(p: Platform)
      reads this
    {
      blobObject.Some?
      && shape == blobObject.value.opArgBlobAttr.shape
      && p.dtypeByDataType(blobObject.value.opArgBlobAttr.dtype) == Ok(dtype)
      && parallelDesc == Some(blobObject.value.ParallelDescSymbol())
      && p.deviceByParallelDesc(blobObject.value.ParallelDescSymbol()) == Ok(device)
    }

    /** The constructor that takes a storage: it keeps every argument and binds no blob object. */
    constructor (shape: Shape, dtype: DType, device: Device, tensorStorage: TensorStorage?,
                 requiresGrad: bool, isLeaf: bool, retainGrad: bool)
      ensures this.shape == shape && this.dtype == dtype && this.device == device
      ensures this.tensorStorage == tensorStorage
      ensures this.requiresGrad == requiresGrad && this.isLeaf == isLeaf && this.retainGrad == retainGrad
      ensures parallelDesc == None && blobObject == None
    {
      this.shape := shape;
      this.dtype := dtype;
      this.device := device;
      this.tensorStorage := tensorStorage;
      this.requiresGrad := requiresGrad;
      this.isLeaf := isLeaf;
      this.retainGrad := retainGrad;
      parallelDesc := None;
      blobObject := None;
    }

    /**
     * The constructor without a storage: it delegates with a null storage, then makes a storage
     * on the placement of `device`. `CHECK_JUST` aborts the process when there is none.
     */
    static method WithoutStorage(shape: Shape, dtype: DType, device: Device,
                                 requiresGrad: bool, isLeaf: bool, retainGrad: bool, p: Platform)
      returns (r: Result<EagerMirroredTensorImpl>)
      ensures r.Ok? <==> p.parallelDescByDevice(device).Ok?
      ensures r.Err? ==> r.error.Fatal?
      ensures r.Ok? ==>
        && fresh(r.value)
        && r.value.shape == shape && r.value.dtype == dtype && r.value.device == device
        && r.value.requiresGrad == requiresGrad && r.value.isLeaf == isLeaf && r.value.retainGrad == retainGrad
        && r.value.parallelDesc == None && r.value.blobObject == None
        && r.value.tensorStorage != null && fresh(r.value.tensorStorage)
        && r.value.tensorStorage.parallelDesc == p.parallelDescByDevice(device).value
    {
      var impl := new EagerMirroredTensorImpl(shape, dtype, device, null, requiresGrad, isLeaf, retainGrad);
      var pd := p.parallelDescByDevice(device);
      if pd.Err? {
        return Err(Fatal("CHECK_JUST(Device::MakeParallelDescByDevice(*device)) failed"));
      }
      impl.tensorStorage := new TensorStorage(pd.value);
      r := Ok(impl);
    }

    method SetShape(shape: Shape)
      modifies this`shape
      ensures this.shape == shape
    {
      this.shape := shape;
    }

    method SetDType(dtype: DType)
      modifies this`dtype
      ensures this.dtype == dtype
    {
      this.dtype := dtype;
    }

    /**
     * Sets the device, then derives the placement from it. When that fails the device is
     * already the new one and the placement is the old one.
     */
    method SetDevice(device: Device, p: Platform) returns (o: Outcome)
      modifies this`device, this`parallelDesc
      ensures this.device == device
      ensures p.parallelDescByDevice(device).Ok? ==>
        o == Pass && parallelDesc == Some(p.parallelDescByDevice(device).value)
      ensures p.parallelDescByDevice(device).Err? ==>
        o == Fail(p.parallelDescByDevice(device).error) && parallelDesc == old(parallelDesc)
      ensures o.Pass? && MappingsAgree(p) ==> DeviceMatchesPlacement(p)
    {
      this.device := device;
      var pd := p.parallelDescByDevice(device);
      if pd.Err? {
        return Fail(pd.error);
      }
      parallelDesc := Some(pd.value);
      o := Pass;
    }

    /**
     * Sets the placement, then derives the device from it. When that fails the placement is
     * already the new one and the device is the old one.
     */
    method SetParallelDesc(parallelDesc: ParallelDesc, p: Platform) returns (o: Outcome)
      modifies this`device, this`parallelDesc
      ensures this.parallelDesc == Some(parallelDesc)
      ensures p.deviceByParallelDesc(parallelDesc).Ok? ==>
        o == Pass && device == p.deviceByParallelDesc(parallelDesc).value
      ensures p.deviceByParallelDesc(parallelDesc).Err? ==>
        o == Fail(p.deviceByParallelDesc(parallelDesc).error) && device == old(device)
      ensures o.Pass? && MappingsAgree(p) ==> DeviceMatchesPlacement(p)
    {
      this.parallelDesc := Some(parallelDesc);
      var d := p.deviceByParallelDesc(parallelDesc);
      if d.Err? {
        return Fail(d.error);
      }
      device := d.value;
      o := Pass;
    }

    /**
     * Copies the shape from the blob object, then looks up its data type (returning when that
     * fails), then sets the placement to the blob object's, which also derives the device.
     */
    method SyncBlobObject2Attributes(blob: BlobObject, p: Platform) returns (o: Outcome)
      modifies this`shape, this`dtype, this`device, this`parallelDesc
      ensures shape == blob.opArgBlobAttr.shape
      ensures var dt := p.dtypeByDataType(blob.opArgBlobAttr.dtype);
        if dt.Err? then
          o == Fail(dt.error) && dtype == old(dtype) && parallelDesc == old(parallelDesc) && device == old(device)
        else
          var d := p.deviceByParallelDesc(blob.ParallelDescSymbol());
          && dtype == dt.value
          && parallelDesc == Some(blob.ParallelDescSymbol())
          && (d.Ok? ==> o == Pass && device == d.value)
          && (d.Err? ==> o == Fail(d.error) && device == old(device))
    {
      SetShape(blob.opArgBlobAttr.shape);
      var dt := p.dtypeByDataType(blob.opArgBlobAttr.dtype);
      if dt.Err? {
        return Fail(dt.error);
      }
      SetDType(dt.value);
      o := SetParallelDesc(blob.ParallelDescSymbol(), p);
    }

    /**
     * Binds the blob object first, then re-derives the cached attributes from it; a failed
     * lookup leaves the binding and the shape updated and returns the lookup's error.
     */
    method SetBlobObject(blob: BlobObject, p: Platform) returns (o: Outcome)
      modifies this`blobObject, this`shape, this`dtype, this`device, this`parallelDesc
      ensures blobObject == Some(blob)
      ensures shape == blob.opArgBlobAttr.shape
      ensures var dt := p.dtypeByDataType(blob.opArgBlobAttr.dtype);
        if dt.Err? then
          o == Fail(dt.error) && dtype == old(dtype) && parallelDesc == old(parallelDesc) && device == old(device)
        else
          var d := p.deviceByParallelDesc(blob.ParallelDescSymbol());
          && dtype == dt.value
          && parallelDesc == Some(blob.ParallelDescSymbol())
          && (d.Ok? ==> o == Pass && device == d.value)
          && (d.Err? ==> o == Fail(d.error) && device == old(device))
      ensures o.Pass? <==> Synced(p)
    {
      blobObject := Some(blob);
      o := SyncBlobObject2Attributes(blob, p);
    }
  }

  class EagerConsistentTensorImpl {
    const requiresGrad: bool
    const isLeaf: bool
    const retainGrad: bool
    var parallelDesc: Option<ParallelDesc>
    var shape: Shape
    var dtype: DType
    var blobObject: Option<BlobObject>

    ghost predicate Synced(p: Platform)
      reads this
    {
      blobObject.Some?
      && shape == blobObject.value.opArgBlobAttr.shape
      && p.dtypeByDataType(blobObject.value.opArgBlobAttr.dtype) == Ok(dtype)
      && parallelDesc == Some(blobObject.value.ParallelDescSymbol())
    }

    constructor (shape: Shape, dtype: DType, requiresGrad: bool, isLeaf: bool, retainGrad: bool)
      ensures this.shape == shape && this.dtype == dtype
      ensures this.requiresGrad == requiresGrad && this.isLeaf == isLeaf && this.retainGrad == retainGrad
      ensures parallelDesc == None && blobObject == None
    {
      this.shape := shape;
      this.dtype := dtype;
      this.requiresGrad := requiresGrad;
      this.isLeaf := isLeaf;
      this.retainGrad := retainGrad;
      parallelDesc := None;
      blobObject := None;
    }

    method SetShape(shape: Shape)
      modifies this`shape
      ensures this.shape == shape
    {
      this.shape := shape;
    }

    method SetDType(dtype: DType)
      modifies this`dtype
      ensures this.dtype == dtype
    {
      this.dtype := dtype;
    }

    /** A consistent tensor has no single device: only the placement changes, and always succeeds. */
    method SetParallelDesc(parallelDesc: ParallelDesc) returns (o: Outcome)
      modifies this`parallelDesc
      ensures this.parallelDesc == Some(parallelDesc)
      ensures o == Pass
    {
      this.parallelDesc := Some(parallelDesc);
      o := Pass;
    }

    method SyncBlobObject2Attributes(blob: BlobObject, p: Platform) returns (o: Outcome)
      modifies this`shape, this`dtype, this`parallelDesc
      ensures shape == blob.opArgBlobAttr.shape
      ensures var dt := p.dtypeByDataType(blob.opArgBlobAttr.dtype);
        if dt.Err? then
          o == Fail(dt.error) && dtype == old(dtype) && parallelDesc == old(parallelDesc)
        else
          o == Pass && dtype == dt.value && parallelDesc == Some(blob.ParallelDescSymbol())
    {
      SetShape(blob.opArgBlobAttr.shape);
      var dt := p.dtypeByDataType(blob.opArgBlobAttr.dtype);
      if dt.Err? {
        return Fail(dt.error);
      }
      SetDType(dt.value);
      o := SetParallelDesc(blob.ParallelDescSymbol());
    }

    /** Binds the blob object, then re-derives shape, data type and placement from it. */
    method SetBlobObject(blob: BlobObject, p: Platform) returns (o: Outcome)
      modifies this`blobObject, this`shape, this`dtype, this`parallelDesc
      ensures blobObject == Some(blob)
      ensures shape == blob.opArgBlobAttr.shape
      ensures var dt := p.dtypeByDataType(blob.opArgBlobAttr.dtype);
        if dt.Err? then
          o == Fail(dt.error) && dtype == old(dtype) && parallelDesc == old(parallelDesc)
        else
          o == Pass && dtype == dt.value && parallelDesc == Some(blob.ParallelDescSymbol())
      ensures o.Pass? <==> Synced(p)
    {
      blobObject := Some(blob);
      o := SyncBlobObject2Attributes(blob, p);
    }
  }
}
