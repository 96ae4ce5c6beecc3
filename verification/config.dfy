/**
 * The generator configuration (config.js): default schema and table lists, the
 * optional local overrides, the feature toggles, the SQL Server to .NET type table
 * and the output sub-folder of each table.
 */
module Config {
  import opened Wrappers
  import opened JsObject

  /** `sqlDataTypeMapping`. */
  const SqlDataTypeMapping: map<string, string> := map[
    "bigint" := "long",
    "binary" := "byte[]",
    "bit" := "bool",
    "char" := "string",
    "date" := "DateTime",
    "datetime" := "DateTime",
    "datetime2" := "DateTime",
    "datetimeoffset" := "DateTimeOffset",
    "decimal" := "decimal",
    "float" := "double",
    "image" := "byte[]",
    "int" := "int",
    "money" := "decimal",
    "nchar" := "string",
    "ntext" := "string",
    "numeric" := "decimal",
    "nvarchar" := "string",
    "real" := "float",
    "rowversion" := "byte[]",
    "smalldatetime" := "DateTime",
    "smallint" := "short",
    "smallmoney" := "decimal",
    "text" := "string",
    "time" := "TimeSpan",
    "timestamp" := "byte[]",
    "tinyint" := "byte",
    "uniqueidentifier" := "Guid",
    "varbinary" := "byte[]",
    "varchar" := "string",
    "xml" := "string"
  ]

  /** `sqlDataTypeMapping[dataType]`, `None` for a type the table does not list. */
  function DotNetTypeOf(sqlType: string): (r: Option<string>)
    ensures r.Some? <==> sqlType in SqlDataTypeMapping
  {
    if sqlType in SqlDataTypeMapping then Some(SqlDataTypeMapping[sqlType]) else None
  }

  /** Every character and text type maps to `string`. */
  lemma TextTypesMapToString()
    ensures forall t :: (t in ["char", "nchar", "varchar", "nvarchar", "text", "ntext", "xml"]
                         ==> DotNetTypeOf(t) == Some("string"))
  {
  }

  /** Date types map to `DateTime`, `datetimeoffset` to `DateTimeOffset`. */
  lemma DateTypesMapToDateTime()
    ensures forall t :: (t in ["date", "datetime", "datetime2", "smalldatetime"]
                         ==> DotNetTypeOf(t) == Some("DateTime"))
    ensures DotNetTypeOf("datetimeoffset") == Some("DateTimeOffset")
  {
  }

  lemma IntegerAndBitTypes()
    ensures DotNetTypeOf("bit") == Some("bool")
    ensures DotNetTypeOf("bigint") == Some("long")
    ensures DotNetTypeOf("int") == Some("int")
  {
  }

  /** No mapped type already ends in `?`, so a nullable suffix lands on a clean base type. */
  lemma NoMappedTypeIsNullable()
    ensures forall t :: t in SqlDataTypeMapping ==>
      |SqlDataTypeMapping[t]| > 0 && SqlDataTypeMapping[t][|SqlDataTypeMapping[t]| - 1] != '?'
  {
  }

  /** `tableDictionaryPath`. */
  const TableDictionaryPath: map<string, string> := map[
    "Address" := "system-configuration",
    "AppSettingSmtp" := "system-configuration",
    "BlackList" := "system-configuration",
    "Brand" := "brand",
    "BrandEmail" := "brand",
    "BrandLink" := "brand",
    "BrandProfile" := "brand",
    "BrandSetting" := "brand",
    "Cdn" := "system-configuration",
    "City" := "system-definition",
    "Configuration" := "system-configuration",
    "Country" := "system-definition",
    "Coupon" := "coupon",
    "CouponUser" := "coupon",
    "Currency" := "system-definition",
    "Device" := "device",
    "DeviceProfile" := "device",
    "DeviceSetting" := "device",
    "ExternalAuthenticationProvider" := "system-configuration",
    "ExternalAuthenticationProviderUser" := "system-configuration",
    "ExchangeRate" := "system-configuration",
    "Feature" := "pricing",
    "HelpDesk" := "tracking",
    "HelpDeskFeedback" := "tracking",
    "HelpDeskFeedbackAttachment" := "tracking",
    "Language" := "system-definition",
    "License" := "license",
    "Package" := "pricing",
    "PackageFeature" := "",
    "Payment" := "payment",
    "PaymentHistory" := "payment",
    "PaymentMethod" := "payment",
    "PaymentProvider" := "system-configuration",
    "Permission" := "role-right",
    "Point" := "point",
    "PointEvent" := "point",
    "PointHistory" := "point",
    "PointReward" := "point",
    "Price" := "pricing",
    "Role" := "role-right",
    "RolePermission" := "",
    "State" := "system-definition",
    "SubscriptionType" := "pricing",
    "TimeZone" := "system-definition",
    "TrackingActivity" := "tracking",
    "TrackingEmail" := "tracking",
    "TrackingEmailPattern" := "tracking",
    "TrackingEmailRead" := "tracking",
    "TrackingEvent" := "tracking",
    "TrackingNotification" := "tracking",
    "TrackingNotificationRead" := "tracking",
    "User" := "user",
    "UserAddress" := "user",
    "UserProfile" := "user",
    "UserRole" := "user",
    "UserSetting" := "user",
    "UserWallet" := "payment"
  ]

  /** `tableDictionaryPath[tableName] || ""`. */
  function PrefixPath(tableName: string): (r: string)
    ensures tableName in TableDictionaryPath ==> r == TableDictionaryPath[tableName]
    ensures tableName !in TableDictionaryPath ==> r == ""
  {
    if tableName in TableDictionaryPath then TableDictionaryPath[tableName] else ""
  }

  /** The default `configToggles`, in declaration order. */
  const DefaultToggles: Entries<bool> := [
    ("shouldGenerateDataAccess", true),
    ("shouldGenerateRepository", true),
    ("shouldGenerateCoreModels", true),
    ("shouldGenerateEntityClasses", true),
    ("shouldGenerateEntityModels", true),
    ("shouldGenerateMemoryClasses", false)
  ]

  /**
   * The local configuration file's object. A field that is absent or falsy is `None`;
   * a present list is truthy even when empty, a schema only when non-empty.
   */
  datatype LocalConfig = LocalConfig(
    database: Option<string>,
    tableSchema: Option<string>,
    includedEntityList: Option<seq<string>>,
    excludedEntityList: Option<seq<string>>,
    includedCoreSuffixList: Option<seq<string>>,
    excludedCoreSuffixList: Option<seq<string>>,
    toggles: Option<Entries<bool>>)

  /** Every toggle of `local` written over `toggles`, in the local object's key order. */
  function Overridden(toggles: Entries<bool>, local: Entries<bool>): Entries<bool>
  {
    if local == [] then toggles
    else
      var last := local[|local| - 1];
      Put(Overridden(toggles, local[..|local| - 1]), last.0, last.1)
  }

  /**
   * A toggle named in the local object takes the local value; every other toggle keeps
   * its previous value. (The local object's keys are distinct, as an object's are.)
   */
  lemma {:induction false} OverriddenGet(toggles: Entries<bool>, local: Entries<bool>, key: string)
    requires DistinctKeys(local)
    ensures Get(Overridden(toggles, local), key)
         == if key in Keys(local) then Get(local, key) else Get(toggles, key)
    decreases |local|
  {
    if local != [] {
      var front := local[..|local| - 1];
      var last := local[|local| - 1];
      assert Keys(front) == Keys(local)[..|local| - 1];
      assert DistinctKeys(front);
      OverriddenGet(toggles, front, key);
      GetPut(Overridden(toggles, front), last.0, last.1, key);
      GetLast(local, key);
    }
  }

  /** Reading a key of an object whose last entry has that key, or does not. */
  lemma {:induction false} GetLast(local: Entries<bool>, key: string)
    requires local != [] && DistinctKeys(local)
    ensures var front := local[..|local| - 1];
      Get(local, key) == if local[|local| - 1].0 == key then Some(local[|local| - 1].1) else Get(front, key)
    decreases |local|
  {
    if |local| > 1 {
      var tail := local[1..];
      assert Keys(tail) == Keys(local)[1..];
      assert DistinctKeys(tail);
      GetLast(tail, key);
      assert tail[..|tail| - 1] == local[..|local| - 1][1..];
      if local[0].0 == key {
        assert Keys(local)[0] == key;
        assert Keys(local)[|local| - 1] == local[|local| - 1].0;
      }
    }
  }

  /** The configuration values config.js exports. */
  class Configuration {
    var databaseConfig: string
    var tableSchema: string
    var includedEntityList: seq<string>
    var excludedEntityList: seq<string>
    var includedCoreSuffixList: seq<string>
    var excludedCoreSuffixList: seq<string>
    var configToggles: Entries<bool>

    /** The defaults: schema `JFW`, no include list, `LOG4NET` excluded. */
    constructor (defaultDatabase: string)
      ensures databaseConfig == defaultDatabase
      ensures tableSchema == "JFW"
      ensures includedEntityList == [] && excludedEntityList == ["LOG4NET"]
      ensures includedCoreSuffixList == [] && excludedCoreSuffixList == []
      ensures configToggles == DefaultToggles
    {
      databaseConfig := defaultDatabase;
      tableSchema := "JFW";
      includedEntityList := [];
      excludedEntityList := ["LOG4NET"];
      includedCoreSuffixList := [];
      excludedCoreSuffixList := [];
      configToggles := DefaultToggles;
    }

    /**
     * The override block, run when the local file exists: each value replaces the default
     * only when the local object supplies a truthy one; toggles are written key by key.
     */
    method ApplyLocalConfig(localFile: Option<LocalConfig>)
      modifies this
      ensures localFile.None? ==>
        && databaseConfig == old(databaseConfig) && tableSchema == old(tableSchema)
        && includedEntityList == old(includedEntityList) && excludedEntityList == old(excludedEntityList)
        && includedCoreSuffixList == old(includedCoreSuffixList)
        && excludedCoreSuffixList == old(excludedCoreSuffixList) && configToggles == old(configToggles)
      ensures localFile.Some? ==>
        var local := localFile.value;
        && databaseConfig == local.database.GetOr(old(databaseConfig))
        && tableSchema == (if local.tableSchema.Some? && local.tableSchema.value != "" then local.tableSchema.value else old(tableSchema))
        && includedEntityList == local.includedEntityList.GetOr(old(includedEntityList))
        && excludedEntityList == local.excludedEntityList.GetOr(old(excludedEntityList))
        && includedCoreSuffixList == local.includedCoreSuffixList.GetOr(old(includedCoreSuffixList))
        && excludedCoreSuffixList == local.excludedCoreSuffixList.GetOr(old(excludedCoreSuffixList))
        && configToggles == Overridden(old(configToggles), local.toggles.GetOr([]))
    {
      if localFile.None? {
        return;
      }
      var local := localFile.value;
      var written := configToggles;
      if local.toggles.Some? {
        var toggles := local.toggles.value;
        for i := 0 to |toggles|
          invariant written == Overridden(old(configToggles), toggles[..i])
        {
          assert toggles[..i + 1][..i] == toggles[..i];
          written := Put(written, toggles[i].0, toggles[i].1);
        }
        assert toggles[..|toggles|] == toggles;
      }
      databaseConfig := local.database.GetOr(databaseConfig);
      tableSchema := if local.tableSchema.Some? && local.tableSchema.value != "" then local.tableSchema.value else tableSchema;
      includedEntityList := local.includedEntityList.GetOr(includedEntityList);
      excludedEntityList := local.excludedEntityList.GetOr(excludedEntityList);
      includedCoreSuffixList := local.includedCoreSuffixList.GetOr(includedCoreSuffixList);
      excludedCoreSuffixList := local.excludedCoreSuffixList.GetOr(excludedCoreSuffixList);
      configToggles := written;
    }
  }
}
