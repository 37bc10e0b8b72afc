/**
 The fixture's built-in configuration table (the class attribute `config` of
 `AppConfig`), which every new fixture copies before applying its overrides.
 */
module DefaultTable {
  import opened ConfigMaps

  /** `base64("some-blob-account-key")`, precomputed. */
  const ENCODED_ACCOUNT_KEY: string := "c29tZS1ibG9iLWFjY291bnQta2V5"

  /** The JSON object describing the fake blob-storage account. */
  const BLOB_STORAGE_INFO: string :=
    "{\"accountName\": \"some-blob-account-name\", \"containerName\": \"some-blob-container-name\", \"accountKey\": \""
    + ENCODED_ACCOUNT_KEY + "\"}"

  /** The value of the application's custom conversation-flow setting (defined outside this model). */
  const CONVERSATION_FLOW_CUSTOM: string

  /** The `resources` directory beside the test module, found on the file system at import time. */
  const TIKTOKEN_CACHE_DIR: string

  /** The keys the application sets by itself, listed so that restoring removes them again. */
  const APP_SET_KEYS: set<string> := {"OPENAI_API_TYPE", "OPENAI_API_KEY", "OPENAI_API_VERSION"}

  /** The default table, in the order the source lists it. */
  const DEFAULTS: Config := map[
      "APPLICATIONINSIGHTS_ENABLED" := Some("False"),
      "AZURE_AUTH_TYPE" := Some("keys"),
      "AZURE_BLOB_STORAGE_INFO" := Some(BLOB_STORAGE_INFO),
      "AZURE_COMPUTER_VISION_KEY" := Some("some-computer-vision-key"),
      "AZURE_CONTENT_SAFETY_ENDPOINT" := Some("some-content-safety-endpoint"),
      "AZURE_CONTENT_SAFETY_KEY" := Some("some-content-safety-key"),
      "AZURE_FORM_RECOGNIZER_ENDPOINT" := Some("some-form-recognizer-endpoint"),
      "AZURE_FORM_RECOGNIZER_INFO" := Some("{\"endpoint\":\"some-key-vault-endpoint\",\"key\":\"some-key-vault-endpoint\"}"),
      "AZURE_OPENAI_API_KEY" := Some("some-azure-openai-api-key"),
      "AZURE_OPENAI_API_VERSION" := Some("2024-02-01"),
      "AZURE_OPENAI_EMBEDDING_MODEL_INFO" := Some("{\"model\":\"some-embedding-model\",\"modelName\":\"some-embedding-model-name\",\"modelVersion\":\"some-embedding-model-version\"}"),
      "AZURE_OPENAI_ENDPOINT" := Some("some-openai-endpoint"),
      "AZURE_OPENAI_MAX_TOKENS" := Some("1000"),
      "AZURE_OPENAI_MODEL_INFO" := Some("{\"model\":\"some-openai-model\",\"modelName\":\"some-openai-model-name\",\"modelVersion\":\"some-openai-model-version\"}"),
      "AZURE_OPENAI_VISION_MODEL" := Some("some-openai-vision-model"),
      "AZURE_OPENAI_RESOURCE" := Some("some-openai-resource"),
      "AZURE_OPENAI_STREAM" := Some("True"),
      "AZURE_OPENAI_STOP_SEQUENCE" := Some(""),
      "AZURE_OPENAI_SYSTEM_MESSAGE" := Some("You are an AI assistant that helps people find information."),
      "AZURE_OPENAI_TEMPERATURE" := Some("0"),
      "AZURE_OPENAI_TOP_P" := Some("1.0"),
      "AZURE_RESOURCE_GROUP" := Some("some-resource-group"),
      "AZURE_SEARCH_CONVERSATIONS_LOG_INDEX" := Some("some-log-index"),
      "AZURE_SEARCH_CONTENT_COLUMN" := Some("content"),
      "AZURE_SEARCH_CONTENT_VECTOR_COLUMN" := Some("some-search-content-vector-columns"),
      "AZURE_SEARCH_DIMENSIONS" := Some("some-search-dimensions"),
      "AZURE_SEARCH_ENABLE_IN_DOMAIN" := Some("True"),
      "AZURE_SEARCH_FIELDS_ID" := Some("some-search-fields-id"),
      "AZURE_SEARCH_FIELDS_METADATA" := Some("some-search-fields-metadata"),
      "AZURE_SEARCH_FIELDS_TAG" := Some("some-search-fields-tag"),
      "AZURE_SEARCH_FILENAME_COLUMN" := Some("filepath"),
      "AZURE_SEARCH_FILTER" := Some("some-search-filter"),
      "AZURE_SEARCH_INDEX" := Some("some-azure-search-index"),
      "AZURE_SEARCH_INDEX_IS_PRECHUNKED" := Some("some-azure-search-index-is-prechunked"),
      "AZURE_SEARCH_KEY" := Some("some-azure-search-key"),
      "AZURE_SEARCH_SERVICE" := Some("some-azure-search-service"),
      "AZURE_SEARCH_SEMANTIC_SEARCH_CONFIG" := Some("some-search-semantic-search-config"),
      "AZURE_SEARCH_TITLE_COLUMN" := Some("title"),
      "AZURE_SEARCH_CHUNK_COLUMN" := Some("chunk"),
      "AZURE_SEARCH_SOURCE_COLUMN" := Some("source"),
      "AZURE_SEARCH_OFFSET_COLUMN" := Some("offset"),
      "AZURE_SEARCH_TOP_K" := Some("5"),
      "AZURE_SEARCH_URL_COLUMN" := Some("url"),
      "AZURE_SEARCH_USE_INTEGRATED_VECTORIZATION" := Some("False"),
      "AZURE_SEARCH_INDEXER_NAME" := Some("some-azure-search-indexer-name"),
      "AZURE_SEARCH_DATASOURCE_NAME" := Some("some-azure-search-datasource-name"),
      "AZURE_SEARCH_USE_SEMANTIC_SEARCH" := Some("False"),
      "AZURE_SPEECH_REGION_ENDPOINT" := Some("some-speech-region-endpoint"),
      "AZURE_SPEECH_SERVICE_KEY" := Some("some-azure-speech-service-key"),
      "AZURE_SPEECH_SERVICE_NAME" := Some("some-speech-service-name"),
      "AZURE_SPEECH_SERVICE_REGION" := Some("some-azure-speech-service-region"),
      "AZURE_SUBSCRIPTION_ID" := Some("some-subscription-id"),
      "BACKEND_URL" := Some("some-backend-url"),
      "DOCUMENT_PROCESSING_QUEUE_NAME" := Some("some-document-processing-queue-name"),
      "FUNCTION_KEY" := Some("some-function-key"),
      "LOAD_CONFIG_FROM_BLOB_STORAGE" := Some("True"),
      "LOGLEVEL" := Some("DEBUG"),
      "ORCHESTRATION_STRATEGY" := Some("openai_function"),
      "CONVERSATION_FLOW" := Some(CONVERSATION_FLOW_CUSTOM),
      "AZURE_SPEECH_RECOGNIZER_LANGUAGES" := Some("en-US,es-ES"),
      "TIKTOKEN_CACHE_DIR" := Some(TIKTOKEN_CACHE_DIR),
      "USE_ADVANCED_IMAGE_PROCESSING" := Some("False"),
      "ADVANCED_IMAGE_PROCESSING_MAX_IMAGES" := Some("1"),
      "USE_KEY_VAULT" := Some("False"),
      "OPENAI_API_TYPE" := None,
      "OPENAI_API_KEY" := None,
      "OPENAI_API_VERSION" := None,
      "DATABASE_TYPE" := Some("CosmosDB")
    ]

  /**
   The keys the application sets by itself are in the table with the absent
   marker, so staging removes them and restoring removes them again when no
   prior value was recorded.
   */
  lemma AppSetKeysDefaultToAbsent()
    ensures APP_SET_KEYS <= DEFAULTS.Keys
    ensures forall k :: k in APP_SET_KEYS ==> DEFAULTS[k] == None
  {
  }
}
