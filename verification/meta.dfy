/** The schema records the request builds and hands to the storage engine
    (engine::meta::CollectionSchema and engine::meta::hybrid::FieldSchema). */
module Meta {

  /** engine::meta::hybrid::DataType. Only the two vector kinds matter to the request;
      every other enumerator is carried by its integer value. */
  datatype DataType = FloatVector | BinaryVector | OtherType(code: int)

  predicate IsVector(t: DataType) {
    t == FloatVector || t == BinaryVector
  }

  /** One field of a hybrid collection. */
  datatype FieldSchema = FieldSchema(
    collectionId: string,
    fieldName: string,
    fieldType: DataType,
    indexName: string,
    indexParam: string,
    fieldParams: string)

  /** The collection-wide attributes the request sets. */
  datatype CollectionSchema = CollectionSchema(
    collectionId: string,
    dimension: nat,
    indexFileSize: int,
    metricType: int,
    engineType: int)

  /** The default index file size, metric type and engine type of a freshly constructed
      CollectionSchema; they are defined outside this model and given as parameters. */
  datatype Defaults = Defaults(indexFileSize: int, metricType: int, engineType: int)

  /** A default-constructed CollectionSchema. */
  function NewCollection(d: Defaults): CollectionSchema {
    CollectionSchema("", 0, d.indexFileSize, d.metricType, d.engineType)
  }
}
